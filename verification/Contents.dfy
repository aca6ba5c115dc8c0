/** Binding changes at the level of logical content: what the client expects to
    read back after a bind or an unbind, and why revision equality is preserved
    by both. */
module Contents {
  import opened Wrappers
  import opened Templates
  import opened Revision

  /** Drops the entries with one certificate name from a bag. */
  ghost function Drop(bag: multiset<Entry>, certificate: string): (r: multiset<Entry>)
    ensures forall e :: r[e] == if e.certificate == certificate then 0 else bag[e]
    decreases |bag|
  {
    if e: Entry :| e in bag && e.certificate == certificate then Drop(bag[e := 0], certificate)
    else bag
  }

  /** Certificate names are keys of a binding list. */
  predicate Unique(entries: seq<Entry>) {
    forall i, j :: 0 <= i < j < |entries| ==> entries[i].certificate != entries[j].certificate
  }

  /** The same of a bag. */
  ghost predicate Keyed(bag: multiset<Entry>) {
    forall e, f :: e in bag && f in bag && e.certificate == f.certificate ==> e == f && bag[e] == 1
  }

  ghost predicate Holds(bag: multiset<Entry>, certificate: string) {
    exists e :: e in bag && e.certificate == certificate
  }

  ghost function Added(content: Content, entry: Entry): Content {
    if entry in content.bindings then content
    else content.(bindings := content.bindings + multiset{entry})
  }

  ghost function Removed(content: Content, certificate: string): Content {
    content.(bindings := Drop(content.bindings, certificate))
  }

  /** The old slot is replaced unless it already carries the desired name. */
  predicate Replaces(current: Option<Entry>, desired: Entry) {
    current.Some? && current.value.certificate != desired.certificate
  }

  /** The state a synchronization is to reach: the desired entry added if absent,
      the old certificate removed, and everything else as it was. */
  ghost function Goal(baseline: Content, desired: Entry, current: Option<Entry>): Content {
    if Replaces(current, desired) then Removed(Added(baseline, desired), current.value.certificate)
    else Added(baseline, desired)
  }

  lemma EntriesMember(bindings: seq<Binding>, entry: Entry)
    ensures entry in multiset(Entries(bindings)) <==> exists b :: b in bindings && b.Logical() == entry
  {
    if entry in multiset(Entries(bindings)) {
      assert entry in Entries(bindings);
      var i :| 0 <= i < |bindings| && Entries(bindings)[i] == entry;
      assert bindings[i] in bindings;
    }
    if b :| b in bindings && b.Logical() == entry {
      var i :| 0 <= i < |bindings| && bindings[i] == b;
      assert Entries(bindings)[i] == entry;
    }
  }

  lemma HasBindingMember(bindings: seq<Binding>, desired: Binding)
    ensures HasBinding(bindings, desired) <==> desired.Logical() in multiset(Entries(bindings))
  {
    EntriesMember(bindings, desired.Logical());
  }

  lemma EntriesAppend(bindings: seq<Binding>, b: Binding)
    ensures multiset(Entries(bindings + [b])) == multiset(Entries(bindings)) + multiset{b.Logical()}
  {
    assert Entries(bindings + [b]) == Entries(bindings) + [b.Logical()];
  }

  lemma DropAppend(bag: multiset<Entry>, entry: Entry, certificate: string)
    ensures Drop(bag + multiset{entry}, certificate) ==
            if entry.certificate == certificate then Drop(bag, certificate)
              else Drop(bag, certificate) + multiset{entry}
  {
  }

  lemma {:induction false} EntriesDrop(bindings: seq<Binding>, certificate: string)
    ensures multiset(Entries(DropBindings(bindings, certificate))) == Drop(multiset(Entries(bindings)), certificate)
  {
    var n := |bindings|;
    if n == 0 {
      assert Entries(bindings) == [];
    } else {
      var front, last := bindings[..n - 1], bindings[n - 1];
      assert bindings == front + [last];
      EntriesAppend(front, last);
      EntriesAppend(DropBindings(front, certificate), last);
      EntriesDrop(front, certificate);
      DropAppend(multiset(Entries(front)), last.Logical(), certificate);
    }
  }

  /** Adding a binding to a template adds its entry to the content. */
  lemma WithBindingContent(template: ClientTemplate, binding: Binding)
    ensures ContentOf(WithBinding(template, binding)) == Added(ContentOf(template), binding.Logical())
  {
    HasBindingMember(template.certificates, binding);
    EntriesAppend(template.certificates, binding);
  }

  /** Removing by certificate name removes exactly the entries of that name. */
  lemma WithoutCertificateContent(template: ClientTemplate, certificate: string)
    ensures ContentOf(WithoutCertificate(template, certificate)) == Removed(ContentOf(template), certificate)
  {
    EntriesDrop(template.certificates, certificate);
  }

  /** Templates that agree before a change agree after it, whatever the binding
      order, generated metadata or representation they were read with. */
  lemma RevisionCongruence(a: ClientTemplate, b: ClientTemplate, x: Binding, y: Binding, certificate: string)
    requires RevisionOf(ContentOf(a)) == RevisionOf(ContentOf(b)) && SameBinding(x, y)
    ensures RevisionOf(ContentOf(WithBinding(a, x))) == RevisionOf(ContentOf(WithBinding(b, y)))
    ensures RevisionOf(ContentOf(WithoutCertificate(a, certificate))) ==
      RevisionOf(ContentOf(WithoutCertificate(b, certificate)))
  {
    RestAvoidsReserved(a);
    RestAvoidsReserved(b);
    RevisionInjective(ContentOf(a), ContentOf(b));
    WithBindingContent(a, x);
    WithBindingContent(b, y);
    WithoutCertificateContent(a, certificate);
    WithoutCertificateContent(b, certificate);
  }

  /** What a template loses and keeps on the way to the goal. */
  lemma GoalEntries(baseline: Content, desired: Entry, current: Option<Entry>, e: Entry)
    ensures Goal(baseline, desired, current).name == baseline.name
    ensures Goal(baseline, desired, current).rest == baseline.rest
    ensures desired in Goal(baseline, desired, current).bindings
    ensures e != desired && Replaces(current, desired) && e.certificate == current.value.certificate ==>
              e !in Goal(baseline, desired, current).bindings
    ensures e != desired && !(Replaces(current, desired) && e.certificate == current.value.certificate) ==>
              Goal(baseline, desired, current).bindings[e] == baseline.bindings[e]
  {
  }
}
