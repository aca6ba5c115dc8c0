/** Client-SSL and server-SSL templates as the client sees them: a typed view
    decoded from a response, with the complete response retained. */
module Templates {
  import opened Wrappers
  import opened JsonTree

  /** One certificate-list entry. */
  datatype Binding = Binding(
    certificate: string, key: string, chain: string, shared: bool, uuid: string, a10url: string)
  {
    /** The configuration part of the entry, without generated metadata. */
    function Logical(): Entry {
      Entry(certificate, key, chain, shared)
    }
  }

  datatype Entry = Entry(certificate: string, key: string, chain: string, shared: bool)

  /** One server-name-list entry. */
  datatype ServerName = ServerName(
    name: string, regex: string,
    certificate: string, key: string, chain: string,
    regexCertificate: string, regexKey: string, regexChain: string,
    template: string, regexTemplate: string)

  datatype ForwardProxy = ForwardProxy(
    caCertificate: string, caKey: string,
    certificate: string, key: string, chain: string,
    alternateCertificate: string, alternateKey: string, alternateChain: string)

  /** The retained response. A template built by hand has none, and nothing in
      the type rules out text that no longer decodes. */
  datatype Payload = Absent | Malformed | Tree(json: Json)

  datatype ClientTemplate = ClientTemplate(
    name: string,
    certificates: seq<Binding>,
    serverNames: seq<ServerName>,
    chainCertificate: string,
    forward: ForwardProxy,
    uuid: string, a10url: string,
    payload: Payload)

  datatype ServerTemplate = ServerTemplate(
    name: string, certificate: string, key: string, payload: Payload)

  // ---- decoding ----

  /** A string member: absent and null both leave the zero value. */
  function StringField(fields: map<string, Json>, key: string): Option<string> {
    if key !in fields || fields[key].Null? then Some("")
    else if fields[key].String? then Some(fields[key].text)
    else None
  }

  /** aXAPI writes booleans as 0 and 1. */
  function BooleanField(fields: map<string, Json>, key: string): Option<bool> {
    if key !in fields || fields[key].Null? then Some(false)
    else if fields[key].Bool? then Some(fields[key].flag)
    else if fields[key] == Number(0.0) then Some(false)
    else if fields[key] == Number(1.0) then Some(true)
    else None
  }

  /** An object to decode into a record; null decodes to the zero record. */
  function Members(value: Json): Option<map<string, Json>> {
    match value
    case Null => Some(map[])
    case Object(fields) => Some(fields)
    case _ => None
  }

  function ListField(fields: map<string, Json>, key: string): Option<seq<Json>> {
    if key !in fields || fields[key].Null? then Some([])
    else if fields[key].Array? then Some(fields[key].items)
    else None
  }

  function DecodeAll<T>(items: seq<Json>, decode: Json -> Option<T>): (r: Option<seq<T>>)
    ensures r.Some? ==> |r.value| == |items|
    ensures r.Some? ==> forall i :: 0 <= i < |items| ==> decode(items[i]) == Some(r.value[i])
    ensures r.None? ==> exists i :: 0 <= i < |items| && decode(items[i]).None?
  {
    if items == [] then Some([])
    else
      var first :- decode(items[0]);
      var rest :- DecodeAll(items[1..], decode);
      Some([first] + rest)
  }

  function DecodeBinding(value: Json): Option<Binding> {
    var fields :- Members(value);
    var certificate :- StringField(fields, "cert");
    var key :- StringField(fields, "key");
    var chain :- StringField(fields, "chain-cert");
    var shared :- BooleanField(fields, "shared");
    var uuid :- StringField(fields, "uuid");
    var a10url :- StringField(fields, "a10-url");
    Some(Binding(certificate, key, chain, shared, uuid, a10url))
  }

  function DecodeServerName(value: Json): Option<ServerName> {
    var fields :- Members(value);
    var name :- StringField(fields, "server-name");
    var regex :- StringField(fields, "server-name-regex");
    var certificate :- StringField(fields, "server-cert");
    var key :- StringField(fields, "server-key");
    var chain :- StringField(fields, "server-chain");
    var regexCertificate :- StringField(fields, "server-cert-regex");
    var regexKey :- StringField(fields, "server-key-regex");
    var regexChain :- StringField(fields, "server-chain-regex");
    var template :- StringField(fields, "sni-template-client-ssl");
    var regexTemplate :- StringField(fields, "sni-regex-template-client-ssl");
    Some(ServerName(name, regex, certificate, key, chain, regexCertificate, regexKey, regexChain, template,
      regexTemplate))
  }

  function DecodeForward(fields: map<string, Json>): Option<ForwardProxy> {
    var caCertificate :- StringField(fields, "forward-proxy-ca-cert");
    var caKey :- StringField(fields, "forward-proxy-ca-key");
    var certificate :- StringField(fields, "fp-ca-certificate");
    var key :- StringField(fields, "fp-ca-key");
    var chain :- StringField(fields, "fp-ca-chain-cert");
    var alternateCertificate :- StringField(fields, "fp-alt-cert");
    var alternateKey :- StringField(fields, "fp-alt-key");
    var alternateChain :- StringField(fields, "fp-alt-chain-cert");
    Some(ForwardProxy(caCertificate, caKey, certificate, key, chain, alternateCertificate, alternateKey,
      alternateChain))
  }

  /** A client-SSL response: typed view plus the response itself. */
  function DecodeClient(value: Json): Option<ClientTemplate> {
    var fields :- Members(value);
    var name :- StringField(fields, "name");
    var list :- ListField(fields, "certificate-list");
    var certificates :- DecodeAll(list, DecodeBinding);
    var sni :- ListField(fields, "server-name-list");
    var serverNames :- DecodeAll(sni, DecodeServerName);
    var chainCertificate :- StringField(fields, "chain-cert");
    var forward :- DecodeForward(fields);
    var uuid :- StringField(fields, "uuid");
    var a10url :- StringField(fields, "a10-url");
    Some(ClientTemplate(name, certificates, serverNames, chainCertificate, forward, uuid, a10url, Tree(value)))
  }

  /** A server-SSL response. The certificate object is optional. */
  function DecodeServer(value: Json): Option<ServerTemplate> {
    var fields :- Members(value);
    var name :- StringField(fields, "name");
    var inner :- Members(if "certificate" in fields then fields["certificate"] else Null);
    var certificate :- StringField(inner, "cert");
    var key :- StringField(inner, "key");
    var shared :- BooleanField(inner, "shared");
    var innerUuid :- StringField(inner, "uuid");
    var uuid :- StringField(fields, "uuid");
    var a10url :- StringField(fields, "a10-url");
    Some(ServerTemplate(name, certificate, key, Tree(value)))
  }

  // ---- binding lists ----

  predicate SameBinding(left: Binding, right: Binding) {
    left.Logical() == right.Logical()
  }

  /** The first entry with the given certificate name. */
  function FindBinding(bindings: seq<Binding>, certificate: string): (r: Option<Binding>)
    ensures r.Some? ==> r.value in bindings && r.value.certificate == certificate
    ensures r.None? <==> forall b :: b in bindings ==> b.certificate != certificate
  {
    if bindings == [] then None
    else if bindings[0].certificate == certificate then Some(bindings[0])
    else FindBinding(bindings[1..], certificate)
  }

  predicate HasBinding(bindings: seq<Binding>, desired: Binding) {
    exists i :: 0 <= i < |bindings| && SameBinding(bindings[i], desired)
  }

  function Entries(bindings: seq<Binding>): seq<Entry> {
    seq(|bindings|, i requires 0 <= i < |bindings| => bindings[i].Logical())
  }

  function WithBinding(template: ClientTemplate, binding: Binding): ClientTemplate {
    if HasBinding(template.certificates, binding) then template
    else template.(certificates := template.certificates + [binding])
  }

  /** Drops every entry with the given certificate name. */
  function WithoutCertificate(template: ClientTemplate, certificate: string): ClientTemplate {
    template.(certificates := DropBindings(template.certificates, certificate))
  }

  function DropBindings(bindings: seq<Binding>, certificate: string): (r: seq<Binding>)
    ensures forall b :: b in r <==> b in bindings && b.certificate != certificate
  {
    if bindings == [] then []
    else
      var rest := DropBindings(bindings[..|bindings| - 1], certificate);
      var last := bindings[|bindings| - 1];
      if last.certificate == certificate then rest else rest + [last]
  }

  /** The loop that copies the kept entries computes WithoutCertificate. */
  method TemplateWithoutCertificate(template: ClientTemplate, certificate: string) returns (copy: ClientTemplate)
    ensures copy == WithoutCertificate(template, certificate)
  {
    var kept: seq<Binding> := [];
    for i := 0 to |template.certificates|
      invariant kept == DropBindings(template.certificates[..i], certificate)
    {
      assert template.certificates[..i + 1][..i] == template.certificates[..i];
      if template.certificates[i].certificate != certificate {
        kept := kept + [template.certificates[i]];
      }
    }
    assert template.certificates[..|template.certificates|] == template.certificates;
    copy := template.(certificates := kept);
  }
}
