/** Every state of a template has a response that shows it, so the claims about
    what is read are about something. */
module Responses {
  import opened Wrappers
  import opened JsonTree
  import opened Templates
  import opened References
  import opened Appliance

  function BindingJson(entry: Entry): Json {
    Object(map["cert" := String(entry.certificate), "key" := String(entry.key), "chain-cert" := String(entry.chain),
               "shared" := Number(if entry.shared then 1.0 else 0.0)])
  }

  /** The response of an appliance that lists the entries in order. */
  function ResponseOf(name: string, slot: Slot): Json {
    Object(slot.rest["name" := String(name)]
                    ["certificate-list" := Array(seq(|slot.entries|,
                      i requires 0 <= i < |slot.entries| => BindingJson(slot.entries[i])))])
  }

  lemma BindingDecodes(entry: Entry)
    ensures DecodeBinding(BindingJson(entry)) ==
      Some(Binding(entry.certificate, entry.key, entry.chain, entry.shared, "", ""))
  {
  }

  /** Decoding the response of a state shows that state, whenever the rest of it
      decodes at all. */
  lemma ResponseShows(name: string, slot: Slot, template: ClientTemplate)
    requires Strip(Object(slot.rest)) == Object(slot.rest) && "name" !in slot.rest && "certificate-list" !in slot.rest
    requires DecodeClient(ResponseOf(name, slot)) == Some(template)
    ensures Presents(template, name, slot) && template.payload == Tree(ResponseOf(name, slot))
  {
    var json := ResponseOf(name, slot);
    DecodedParts(json, template);
    assert json.fields - {"name", "certificate-list"} == slot.rest;
    var list := json.fields["certificate-list"].items;
    assert template.name == name;
    forall i | 0 <= i < |slot.entries| ensures Entries(template.certificates)[i] == slot.entries[i] {
      BindingDecodes(slot.entries[i]);
      assert DecodeBinding(list[i]) == Some(template.certificates[i]);
    }
    assert Entries(template.certificates) == slot.entries;
  }
}
