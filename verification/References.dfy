/** The reference scan that must come out negative before a file is deleted. */
module References {
  import opened Wrappers
  import opened JsonTree
  import opened Templates
  import opened Revision

  /** None is the decode error. */
  function PayloadReferences(payload: Payload, name: string): Option<bool> {
    match payload
    case Absent => Some(false)
    case Malformed => if name == "" then Some(false) else None
    case Tree(json) => Some(name != "" && ContainsString(json, name))
  }

  predicate BindingNames(b: Binding, name: string) {
    b.certificate == name || b.key == name || b.chain == name
  }

  predicate ServerNameNames(b: ServerName, name: string) {
    || b.certificate == name || b.key == name || b.chain == name
    || b.regexCertificate == name || b.regexKey == name || b.regexChain == name
  }

  predicate ForwardNames(f: ForwardProxy, name: string) {
    || f.caCertificate == name || f.caKey == name
    || f.certificate == name || f.key == name || f.chain == name
    || f.alternateCertificate == name || f.alternateKey == name || f.alternateChain == name
  }

  function ClientReferences(template: ClientTemplate, name: string): Option<bool> {
    if name == "" then Some(false)
    else if exists i :: 0 <= i < |template.certificates| && BindingNames(template.certificates[i], name) then Some(true)
    else if exists i :: 0 <= i < |template.serverNames| && ServerNameNames(template.serverNames[i], name) then
      Some(true)
    else if template.chainCertificate == name || ForwardNames(template.forward, name) then Some(true)
    else PayloadReferences(template.payload, name)
  }

  function ServerReferences(template: ServerTemplate, name: string): Option<bool> {
    if name == "" then Some(false)
    else if template.certificate == name || template.key == name then Some(true)
    else PayloadReferences(template.payload, name)
  }

  // ---- typed fields come from the response ----

  /** A non-empty decoded string is a leaf of the object it was read from. */
  lemma FieldIsLeaf(fields: map<string, Json>, key: string, name: string)
    requires StringField(fields, key) == Some(name) && name != ""
    ensures ContainsString(Object(fields), name)
  {
    assert ContainsString(fields[key], name);
  }

  lemma MemberIsLeaf(fields: map<string, Json>, key: string, name: string)
    requires key in fields && ContainsString(fields[key], name)
    ensures ContainsString(Object(fields), name)
  {
  }

  lemma ItemIsLeaf(items: seq<Json>, i: nat, name: string)
    requires i < |items| && ContainsString(items[i], name)
    ensures ContainsString(Array(items), name)
  {
  }

  lemma BindingIsLeaf(value: Json, b: Binding, name: string)
    requires DecodeBinding(value) == Some(b) && BindingNames(b, name) && name != ""
    ensures ContainsString(value, name)
  {
    var fields := Members(value).value;
    var key := if b.certificate == name then "cert" else if b.key == name then "key" else "chain-cert";
    FieldIsLeaf(fields, key, name);
  }

  lemma ServerNameIsLeaf(value: Json, b: ServerName, name: string)
    requires DecodeServerName(value) == Some(b) && ServerNameNames(b, name) && name != ""
    ensures ContainsString(value, name)
  {
    var fields := Members(value).value;
    var key :=
      if b.certificate == name then "server-cert" else if b.key == name then "server-key"
      else if b.chain == name then "server-chain" else if b.regexCertificate == name then "server-cert-regex"
      else if b.regexKey == name then "server-key-regex" else "server-chain-regex";
    FieldIsLeaf(fields, key, name);
  }

  lemma ForwardIsLeaf(fields: map<string, Json>, f: ForwardProxy, name: string)
    requires DecodeForward(fields) == Some(f) && ForwardNames(f, name) && name != ""
    ensures ContainsString(Object(fields), name)
  {
    var key :=
      if f.caCertificate == name then "forward-proxy-ca-cert" else if f.caKey == name then "forward-proxy-ca-key"
      else if f.certificate == name then "fp-ca-certificate" else if f.key == name then "fp-ca-key"
      else if f.chain == name then "fp-ca-chain-cert" else if f.alternateCertificate == name then "fp-alt-cert"
      else if f.alternateKey == name then "fp-alt-key" else "fp-alt-chain-cert";
    FieldIsLeaf(fields, key, name);
  }

  /** The parts of a decoded template, read back from its response. */
  lemma DecodedParts(json: Json, template: ClientTemplate)
    requires DecodeClient(json) == Some(template)
    ensures Members(json).Some?
    ensures ListField(Members(json).value, "certificate-list").Some?
    ensures DecodeAll(ListField(Members(json).value, "certificate-list").value, DecodeBinding) ==
      Some(template.certificates)
    ensures ListField(Members(json).value, "server-name-list").Some?
    ensures DecodeAll(ListField(Members(json).value, "server-name-list").value, DecodeServerName) ==
      Some(template.serverNames)
    ensures StringField(Members(json).value, "chain-cert") == Some(template.chainCertificate)
    ensures DecodeForward(Members(json).value) == Some(template.forward)
    ensures template.payload == Tree(json)
  {
    var fields := Members(json).value;
    var certificates := DecodeAll(ListField(fields, "certificate-list").value, DecodeBinding);
    assert certificates.Some? && template.certificates == certificates.value;
  }

  lemma ListedIsLeaf(fields: map<string, Json>, key: string, i: nat, name: string)
    requires ListField(fields, key).Some? && i < |ListField(fields, key).value|
    requires ContainsString(ListField(fields, key).value[i], name)
    ensures ContainsString(Object(fields), name)
  {
    ItemIsLeaf(fields[key].items, i, name);
    MemberIsLeaf(fields, key, name);
  }

  lemma ListedBindingIsLeaf(json: Json, template: ClientTemplate, i: nat, name: string)
    requires DecodeClient(json) == Some(template) && name != ""
    requires i < |template.certificates| && BindingNames(template.certificates[i], name)
    ensures ContainsString(json, name)
  {
    DecodedParts(json, template);
    var fields := Members(json).value;
    BindingIsLeaf(ListField(fields, "certificate-list").value[i], template.certificates[i], name);
    ListedIsLeaf(fields, "certificate-list", i, name);
  }

  lemma ListedServerNameIsLeaf(json: Json, template: ClientTemplate, i: nat, name: string)
    requires DecodeClient(json) == Some(template) && name != ""
    requires i < |template.serverNames| && ServerNameNames(template.serverNames[i], name)
    ensures ContainsString(json, name)
  {
    DecodedParts(json, template);
    var fields := Members(json).value;
    ServerNameIsLeaf(ListField(fields, "server-name-list").value[i], template.serverNames[i], name);
    ListedIsLeaf(fields, "server-name-list", i, name);
  }

  /** For a decoded template the typed checks add nothing to the raw scan: a name
      is referenced exactly when it is a string of the response. */
  lemma ClientScanIsRawScan(json: Json, template: ClientTemplate, name: string)
    requires DecodeClient(json) == Some(template) && name != ""
    ensures ClientReferences(template, name) == Some(ContainsString(json, name))
  {
    DecodedParts(json, template);
    var fields := Members(json).value;
    if i :| 0 <= i < |template.certificates| && BindingNames(template.certificates[i], name) {
      ListedBindingIsLeaf(json, template, i, name);
    } else if i :| 0 <= i < |template.serverNames| && ServerNameNames(template.serverNames[i], name) {
      ListedServerNameIsLeaf(json, template, i, name);
    } else if template.chainCertificate == name {
      FieldIsLeaf(fields, "chain-cert", name);
    } else if ForwardNames(template.forward, name) {
      ForwardIsLeaf(fields, template.forward, name);
    }
  }

  lemma ServerScanIsRawScan(json: Json, template: ServerTemplate, name: string)
    requires DecodeServer(json) == Some(template) && name != ""
    ensures ServerReferences(template, name) == Some(ContainsString(json, name))
  {
    var fields := Members(json).value;
    if template.certificate == name || template.key == name {
      var inner := Members(if "certificate" in fields then fields["certificate"] else Null).value;
      FieldIsLeaf(inner, if template.certificate == name then "cert" else "key", name);
      MemberIsLeaf(fields, "certificate", name);
    }
  }

  /** Entries of the logical content are found by the scan. */
  lemma EntryIsLeaf(json: Json, template: ClientTemplate, entry: Entry, name: string)
    requires DecodeClient(json) == Some(template) && name != ""
    requires entry in ContentOf(template).bindings
    requires entry.certificate == name || entry.key == name || entry.chain == name
    ensures ContainsString(json, name)
  {
    assert entry in Entries(template.certificates);
    var i :| 0 <= i < |template.certificates| && Entries(template.certificates)[i] == entry;
    ListedBindingIsLeaf(json, template, i, name);
  }

  /** So are the references held in the other fields, although the content only
      keeps them without generated metadata. */
  lemma RestIsLeaf(json: Json, template: ClientTemplate, name: string)
    requires DecodeClient(json) == Some(template)
    requires ContainsString(Object(Rest(template)), name)
    ensures ContainsString(json, name)
  {
    DecodedParts(json, template);
    if json.Object? {
      var others := Object(json.fields - {"name", "certificate-list"});
      StripKeepsStrings(others, name);
      var key :| key in others.fields && ContainsString(others.fields[key], name);
      MemberIsLeaf(json.fields, key, name);
    }
  }
}
