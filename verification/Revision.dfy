/** The canonical template revision on which every safety decision of the
    synchronization rests.

    SHA-256 is taken to be injective, so a revision is represented by the
    canonical state that the program hashes. */
module Revision {
  import opened JsonTree
  import opened Templates
  import opened Sorting

  datatype TemplateRevision = Digest(state: Json)

  // ---- the sort key: the JSON text of one entry ----

  const HEX := "0123456789abcdef"

  /** Characters that the JSON encoder writes as a \u escape. */
  predicate Escaped(c: char) {
    c < ' ' || c in {'<', '>', '&'} || c == 0x2028 as char || c == 0x2029 as char
  }

  function QuoteChar(c: char): string {
    if c == '"' then "\\\""
    else if c == '\\' then "\\\\"
    else if c == '\n' then "\\n"
    else if c == '\r' then "\\r"
    else if c == '\t' then "\\t"
    else if c == 8 as char then "\\b"
    else if c == 12 as char then "\\f"
    else if Escaped(c) then
      var n := c as int;
      ['\\', 'u', HEX[n / 16 / 16 / 16 % 16], HEX[n / 16 / 16 % 16], HEX[n / 16 % 16], HEX[n % 16]]
    else [c]
  }

  function Quote(text: string): string {
    if text == [] then "\"" else QuoteChar(text[0]) + Quote(text[1..])
  }

  function EntryText(entry: Entry): string {
    "{\"certificate\":\"" + (Quote(entry.certificate) + (",\"key\":\"" + (Quote(entry.key) +
    (ChainText(entry.chain) + SharedText(entry.shared)))))
  }

  function ChainText(chain: string): string {
    if chain == "" then "" else ",\"chain\":\"" + Quote(chain)
  }

  function SharedText(shared: bool): string {
    if shared then ",\"shared\":true}" else ",\"shared\":false}"
  }

  lemma HexInjective(m: nat, n: nat)
    requires m < 0x10000 && n < 0x10000
    requires m / 16 / 16 / 16 % 16 == n / 16 / 16 / 16 % 16 && m / 16 / 16 % 16 == n / 16 / 16 % 16
    requires m / 16 % 16 == n / 16 % 16 && m % 16 == n % 16
    ensures m == n
  {
    assert m / 16 / 16 / 16 == n / 16 / 16 / 16;
    assert m / 16 / 16 == n / 16 / 16;
    assert m / 16 == n / 16;
  }

  lemma HexDigits(i: int, j: int)
    requires 0 <= i < 16 && 0 <= j < 16 && HEX[i] == HEX[j]
    ensures i == j
  {
  }

  lemma UnicodeEscapeInjective(a: char, b: char)
    requires |QuoteChar(a)| == 6 && QuoteChar(a) == QuoteChar(b)
    ensures a == b
  {
    var m, n := a as int, b as int;
    HexDigits(m / 16 / 16 / 16 % 16, n / 16 / 16 / 16 % 16);
    HexDigits(m / 16 / 16 % 16, n / 16 / 16 % 16);
    HexDigits(m / 16 % 16, n / 16 % 16);
    HexDigits(m % 16, n % 16);
    HexInjective(m, n);
  }

  /** The first two characters of an encoding fix its length. */
  lemma QuoteCharLength(a: char, b: char, s: string, t: string)
    requires QuoteChar(a) + s == QuoteChar(b) + t
    ensures |QuoteChar(a)| == |QuoteChar(b)|
  {
    var left, right := QuoteChar(a), QuoteChar(b);
    assert (left + s)[0] == left[0] && (right + t)[0] == right[0];
    if |left| > 1 && |right| > 1 {
      assert (left + s)[1] == left[1] && (right + t)[1] == right[1];
    }
  }

  /** Encoded characters form a prefix code. */
  lemma QuoteCharPrefixFree(a: char, b: char, s: string, t: string)
    requires QuoteChar(a) + s == QuoteChar(b) + t
    ensures a == b && s == t
  {
    QuoteCharLength(a, b, s, t);
    var left, right := QuoteChar(a), QuoteChar(b);
    assert left == (left + s)[..|left|] == (right + t)[..|right|] == right;
    assert (left + s)[|left|..] == s && (right + t)[|right|..] == t;
    if |left| == 6 {
      UnicodeEscapeInjective(a, b);
    } else if |left| == 2 {
      assert left[1] == right[1];
    }
  }

  lemma QuoteCharNotEnd(c: char, s: string, t: string)
    ensures QuoteChar(c) + s != "\"" + t
  {
    assert (QuoteChar(c) + s)[0] == QuoteChar(c)[0];
  }

  lemma QuoteStep(a: string, s: string)
    requires a != []
    ensures Quote(a) + s == QuoteChar(a[0]) + (Quote(a[1..]) + s)
  {
    var first, rest := QuoteChar(a[0]), Quote(a[1..]);
    assert (first + rest) + s == first + (rest + s);
  }

  /** A quoted string can be read back from the front of any text. */
  lemma {:induction false} QuoteInjective(a: string, b: string, s: string, t: string)
    requires Quote(a) + s == Quote(b) + t
    ensures a == b && s == t
  {
    if a == [] && b == [] {
      DropPrefix("\"", s, t);
    } else if a == [] {
      QuoteStep(b, t);
      QuoteCharNotEnd(b[0], Quote(b[1..]) + t, s);
    } else if b == [] {
      QuoteStep(a, s);
      QuoteCharNotEnd(a[0], Quote(a[1..]) + s, t);
    } else {
      QuoteStep(a, s);
      QuoteStep(b, t);
      QuoteCharPrefixFree(a[0], b[0], Quote(a[1..]) + s, Quote(b[1..]) + t);
      QuoteInjective(a[1..], b[1..], s, t);
    }
  }

  lemma DropPrefix(p: string, s: string, t: string)
    requires p + s == p + t
    ensures s == t
  {
    assert (p + s)[|p|..] == s && (p + t)[|p|..] == t;
  }

  lemma SharedInjective(a: bool, b: bool)
    requires SharedText(a) == SharedText(b)
    ensures a == b
  {
    assert SharedText(a)[10] == SharedText(b)[10];
  }

  lemma ChainPresent(chain: string, a: bool, b: bool)
    requires chain != ""
    ensures ChainText(chain) + SharedText(a) != "" + SharedText(b)
  {
    var prefix := ",\"chain\":\"";
    assert prefix[2] == 'c';
    assert ChainText(chain) == prefix + Quote(chain);
    assert (ChainText(chain) + SharedText(a))[2] == prefix[2];
    assert SharedText(b)[2] == 's';
    assert ("" + SharedText(b))[2] == SharedText(b)[2];
  }

  lemma DropInnerPrefix(p: string, a: string, b: string, s: string, t: string)
    requires (p + a) + s == (p + b) + t
    ensures a + s == b + t
  {
    assert (p + a) + s == p + (a + s) && (p + b) + t == p + (b + t);
    DropPrefix(p, a + s, b + t);
  }

  lemma ChainInjective(a: string, b: string, s: string, t: string)
    requires a != "" && b != "" && ChainText(a) + s == ChainText(b) + t
    ensures a == b && s == t
  {
    DropInnerPrefix(",\"chain\":\"", Quote(a), Quote(b), s, t);
    QuoteInjective(a, b, s, t);
  }

  /** The text after the key decides chain and flag. */
  lemma TailInjective(a: Entry, b: Entry)
    requires ChainText(a.chain) + SharedText(a.shared) == ChainText(b.chain) + SharedText(b.shared)
    ensures a.chain == b.chain && a.shared == b.shared
  {
    if a.chain != "" && b.chain != "" {
      ChainInjective(a.chain, b.chain, SharedText(a.shared), SharedText(b.shared));
    } else if a.chain != "" {
      ChainPresent(a.chain, a.shared, b.shared);
    } else if b.chain != "" {
      ChainPresent(b.chain, b.shared, a.shared);
    } else {
      DropPrefix("", SharedText(a.shared), SharedText(b.shared));
    }
    SharedInjective(a.shared, b.shared);
  }

  /** Different entries have different texts, so the sort has no ties between
      different entries. */
  lemma EntryTextInjective(a: Entry, b: Entry)
    requires EntryText(a) == EntryText(b)
    ensures a == b
  {
    var ar := ChainText(a.chain) + SharedText(a.shared);
    var br := ChainText(b.chain) + SharedText(b.shared);
    var p, q := "{\"certificate\":\"", ",\"key\":\"";
    DropPrefix(p, Quote(a.certificate) + (q + (Quote(a.key) + ar)), Quote(b.certificate) + (q + (Quote(b.key) + br)));
    QuoteInjective(a.certificate, b.certificate, q + (Quote(a.key) + ar), q + (Quote(b.key) + br));
    DropPrefix(q, Quote(a.key) + ar, Quote(b.key) + br);
    QuoteInjective(a.key, b.key, ar, br);
    TailInjective(a, b);
  }

  // ---- the sort order ----

  /** Lexicographic order on texts. */
  predicate TextLess(a: string, b: string) {
    if b == [] then false
    else if a == [] then true
    else if a[0] != b[0] then a[0] < b[0]
    else TextLess(a[1..], b[1..])
  }

  lemma {:induction false} TextTotal(a: string, b: string)
    ensures TextLess(a, b) || TextLess(b, a) || a == b
    ensures !(TextLess(a, b) && TextLess(b, a))
  {
    if a != [] && b != [] && a[0] == b[0] {
      TextTotal(a[1..], b[1..]);
      assert a == [a[0]] + a[1..] && b == [b[0]] + b[1..];
    }
  }

  lemma {:induction false} TextTransitive(a: string, b: string, c: string)
    requires !TextLess(b, a) && !TextLess(c, b)
    ensures !TextLess(c, a)
  {
    if a != [] && b != [] && c != [] && a[0] == b[0] == c[0] {
      TextTransitive(a[1..], b[1..], c[1..]);
    }
  }

  predicate InOrder(a: Entry, b: Entry) {
    !TextLess(EntryText(b), EntryText(a))
  }

  lemma InOrderTotal(a: Entry, b: Entry)
    ensures InOrder(a, b) || InOrder(b, a)
    ensures InOrder(a, b) && InOrder(b, a) ==> a == b
  {
    TextTotal(EntryText(a), EntryText(b));
    if EntryText(a) == EntryText(b) {
      EntryTextInjective(a, b);
    }
  }

  lemma InOrderTransitive(a: Entry, b: Entry, c: Entry)
    requires InOrder(a, b) && InOrder(b, c)
    ensures InOrder(a, c)
  {
    TextTransitive(EntryText(a), EntryText(b), EntryText(c));
  }

  lemma InOrderIsTotalOrder()
    ensures TotalOrder(InOrder)
  {
    forall a, b ensures InOrder(a, b) || InOrder(b, a) { InOrderTotal(a, b); }
    forall a, b | InOrder(a, b) && InOrder(b, a) ensures a == b { InOrderTotal(a, b); }
    forall a, b, c | InOrder(a, b) && InOrder(b, c) ensures InOrder(a, c) { InOrderTransitive(a, b, c); }
  }

  // ---- the canonical state ----

  function EntryJson(entry: Entry): Json {
    var fields := map["certificate" := String(entry.certificate), "key" := String(entry.key),
      "shared" := Bool(entry.shared)];
    Object(if entry.chain == "" then fields else fields["chain" := String(entry.chain)])
  }

  /** Everything in the response other than the name and the binding list, with
      generated metadata removed. A payload that does not decode to an object
      contributes nothing. */
  function Rest(template: ClientTemplate): map<string, Json> {
    if template.payload.Tree? && template.payload.json.Object? then
      Strip(Object(template.payload.json.fields - {"name", "certificate-list"})).fields
    else map[]
  }

  /** The logical content of a template. */
  datatype Content = Content(name: string, bindings: multiset<Entry>, rest: map<string, Json>)

  function ContentOf(template: ClientTemplate): Content {
    Content(template.name, multiset(Entries(template.certificates)), Rest(template))
  }

  /** The canonical tree: the decoded response with name and sorted bindings
      written over it and generated metadata removed. The binding list is typed,
      so the metadata walk does not enter it. */
  function CanonicalTree(name: string, sorted: seq<Entry>, rest: map<string, Json>): Json {
    Object(rest["name" := String(name)]
               ["certificate-list" := Array(seq(|sorted|, i requires 0 <= i < |sorted| => EntryJson(sorted[i])))])
  }

  /** The sorted arrangement of a bag of entries. */
  ghost function Arrangement(bindings: multiset<Entry>): (sorted: seq<Entry>)
    ensures Sorted(InOrder, sorted) && multiset(sorted) == bindings
  {
    ArrangementExists(bindings);
    var sorted :| Sorted(InOrder, sorted) && multiset(sorted) == bindings;
    sorted
  }

  lemma ArrangementExists(bindings: multiset<Entry>)
    ensures exists sorted :: Sorted(InOrder, sorted) && multiset(sorted) == bindings
  {
    InOrderIsTotalOrder();
    var items := Listing(bindings);
    var sorted := SortBy(InOrder, items);
  }

  /** The revision as a function of logical content alone. */
  ghost function RevisionOf(content: Content): TemplateRevision {
    Digest(CanonicalTree(content.name, Arrangement(content.bindings), content.rest))
  }

  lemma EntryJsonInjective(a: Entry, b: Entry)
    requires EntryJson(a) == EntryJson(b)
    ensures a == b
  {
    var f, g := EntryJson(a).fields, EntryJson(b).fields;
    assert f["certificate"] == g["certificate"] && f["key"] == g["key"] && f["shared"] == g["shared"];
    assert "chain" in f <==> "chain" in g;
    if "chain" in f {
      assert f["chain"] == g["chain"];
    }
  }

  lemma ListInjective(a: seq<Entry>, b: seq<Entry>)
    requires seq(|a|, i requires 0 <= i < |a| => EntryJson(a[i])) ==
      seq(|b|, i requires 0 <= i < |b| => EntryJson(b[i]))
    ensures a == b
  {
    var left := seq(|a|, i requires 0 <= i < |a| => EntryJson(a[i]));
    var right := seq(|b|, i requires 0 <= i < |b| => EntryJson(b[i]));
    assert |a| == |left| == |right| == |b|;
    forall i | 0 <= i < |a| ensures a[i] == b[i] {
      assert left[i] == right[i];
      EntryJsonInjective(a[i], b[i]);
    }
  }

  ghost predicate Reserved(content: Content) {
    "name" !in content.rest && "certificate-list" !in content.rest
  }

  lemma RestAvoidsReserved(template: ClientTemplate)
    ensures Reserved(ContentOf(template))
  {
  }

  /** Equal revisions mean equal content. */
  lemma RevisionInjective(a: Content, b: Content)
    requires Reserved(a) && Reserved(b)
    ensures RevisionOf(a) == RevisionOf(b) <==> a == b
  {
    if RevisionOf(a) == RevisionOf(b) {
      var f, g := RevisionOf(a).state.fields, RevisionOf(b).state.fields;
      assert f["name"] == g["name"] && f["certificate-list"] == g["certificate-list"];
      ListInjective(Arrangement(a.bindings), Arrangement(b.bindings));
      assert a.rest == f - {"name", "certificate-list"} == g - {"name", "certificate-list"} == b.rest;
    }
  }

  /** What a revision identifies: the name, the multiset of entries and the rest
      of the response without generated metadata; nothing more, nothing less. */
  lemma RevisionCharacterisation(a: ClientTemplate, b: ClientTemplate)
    ensures RevisionOf(ContentOf(a)) == RevisionOf(ContentOf(b)) <==>
            && a.name == b.name
            && multiset(Entries(a.certificates)) == multiset(Entries(b.certificates))
            && Rest(a) == Rest(b)
  {
    RestAvoidsReserved(a);
    RestAvoidsReserved(b);
    RevisionInjective(ContentOf(a), ContentOf(b));
  }

  /** Copies the entries into a fresh slice, sorts it, writes name and list over
      the decoded response, removes generated metadata and hashes. */
  method ComputeRevision(template: ClientTemplate) returns (revision: TemplateRevision)
    ensures revision == RevisionOf(ContentOf(template))
  {
    var entries := new Entry[|template.certificates|](_ => Entry("", "", "", false));
    for i := 0 to |template.certificates|
      invariant forall j :: 0 <= j < i ==> entries[j] == template.certificates[j].Logical()
    {
      entries[i] := template.certificates[i].Logical();
    }
    assert entries[..] == Entries(template.certificates);
    InOrderIsTotalOrder();
    var sorted := SortBy(InOrder, entries[..]);
    SortedUnique(InOrder, sorted, Arrangement(multiset(Entries(template.certificates))));
    var rest: map<string, Json> := map[];
    if template.payload.Tree? && template.payload.json.Object? {
      var cleaned := RemoveGeneratedMetadata(Object(template.payload.json.fields - {"name", "certificate-list"}));
      rest := cleaned.fields;
    }
    revision := Digest(CanonicalTree(template.name, sorted, rest));
  }
}
