/** What a caller asks a synchronization to do, and which binding that selects. */
module Targets {
  import opened Wrappers
  import opened Templates
  import opened Revision
  import opened Contents
  import opened Names
  import opened Collision
  import opened Restore

  /** One certificate slot; the current certificate is optional. */
  datatype Target = Target(template: string, currentCertificate: string)

  datatype Options = Options(
    namePrefix: string, expectedRevision: Option<TemplateRevision>,
    cleanupOld: bool, noWriteMemory: bool, shared: bool)

  /** A parsed bundle: whether it passes validation at the time of the call, its
      checksum, and the metadata of its certificates. */
  datatype Bundle = Bundle(valid: bool, checksum: string, certificate: Certificate, chain: seq<Certificate>)

  predicate ValidTarget(target: Target) {
    && ValidTemplateName(target.template)
    && (target.currentCertificate != "" ==> ValidFileName(target.currentCertificate))
  }

  datatype Selection = Empty | Found(binding: Binding) | Unselectable

  /** The binding to replace. */
  function SelectCurrentBinding(bindings: seq<Binding>, named: string, desired: Binding): Selection {
    if named != "" then
      var found := FindBinding(bindings, named);
      if found.Some? then Found(found.value) else Unselectable
    else
      var found := FindBinding(bindings, desired.certificate);
      if found.Some? && SameBinding(found.value, desired) then Found(found.value)
      else if |bindings| == 0 then Empty
      else if |bindings| == 1 then Found(bindings[0])
      else Unselectable
  }

  function Chosen(selection: Selection): Option<Binding> {
    match selection
    case Found(binding) => Some(binding)
    case _ => None
  }

  /** Names are keys of the list. */
  ghost predicate KeyedBindings(bindings: seq<Binding>) {
    Unique(Entries(bindings))
  }

  /** Selection stays inside the list, and a sole binding is never passed over. */
  lemma SelectionSound(bindings: seq<Binding>, named: string, desired: Binding)
    ensures var s := SelectCurrentBinding(bindings, named, desired);
            && (s.Found? ==> s.binding in bindings)
            && (s.Found? && named != "" ==> s.binding.certificate == named)
            && (|bindings| == 1 && !s.Unselectable? ==> s == Found(bindings[0]))
            && (s.Empty? ==> bindings == [])
  {
  }

  /** A rollback looks for the entry to put back without the desired binding at
      hand; whenever it looks, it finds the selected one. */
  lemma RestoresTheSelected(bindings: seq<Binding>, named: string, desired: Binding)
    requires !SelectCurrentBinding(bindings, named, desired).Unselectable?
    requires FindBinding(bindings, desired.certificate).None?
    ensures PreviousToRestore(bindings, named) == Chosen(SelectCurrentBinding(bindings, named, desired))
  {
    SelectionSound(bindings, named, desired);
  }

  lemma {:induction false} FindsTheKeyed(bindings: seq<Binding>, i: nat)
    requires KeyedBindings(bindings) && i < |bindings|
    ensures FindBinding(bindings, bindings[i].certificate) == Some(bindings[i])
  {
    var entries := Entries(bindings);
    if i > 0 {
      assert entries[0].certificate != entries[i].certificate;
      assert Entries(bindings[1..]) == entries[1..];
      FindsTheKeyed(bindings[1..], i - 1);
    }
  }

  /** Without a named certificate a template that already holds the desired entry
      selects it, even beside others: nothing is left to replace. */
  lemma SelectsDesired(bindings: seq<Binding>, desired: Binding)
    requires KeyedBindings(bindings) && HasBinding(bindings, desired)
    ensures var s := SelectCurrentBinding(bindings, "", desired); s.Found? && SameBinding(s.binding, desired)
  {
    var i :| 0 <= i < |bindings| && SameBinding(bindings[i], desired);
    FindsTheKeyed(bindings, i);
  }

  /** Naming a bound certificate always selects its entry. */
  lemma SelectsNamed(bindings: seq<Binding>, i: nat, desired: Binding)
    requires KeyedBindings(bindings) && i < |bindings| && bindings[i].certificate != ""
    ensures SelectCurrentBinding(bindings, bindings[i].certificate, desired) == Found(bindings[i])
  {
    FindsTheKeyed(bindings, i);
  }

  /** Nothing can be selected exactly when a named certificate is not bound, or
      none is named, several bindings exist and the desired one is not bound. */
  lemma UnselectableExactly(bindings: seq<Binding>, named: string, desired: Binding)
    requires KeyedBindings(bindings)
    ensures SelectCurrentBinding(bindings, named, desired).Unselectable? <==>
            if named != "" then forall b :: b in bindings ==> b.certificate != named
            else |bindings| > 1 && !HasBinding(bindings, desired)
  {
    if named == "" && HasBinding(bindings, desired) {
      SelectsDesired(bindings, desired);
    }
    var found := FindBinding(bindings, desired.certificate);
    if found.Some? && SameBinding(found.value, desired) {
      var i :| 0 <= i < |bindings| && bindings[i] == found.value;
      assert HasBinding(bindings, desired);
    }
  }
}
