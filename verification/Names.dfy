/** Managed file names: a sanitised prefix, cut so that prefix and checksum
    suffix fit into 245 bytes. */
module Names {
  import opened Wrappers

  const MAX_FILE_NAME := 245
  const DIGEST_LENGTH := 32

  // ---- name rules ----

  function Utf8Size(c: char): nat {
    if c < 0x80 as char then 1 else if c < 0x800 as char then 2 else if c < 0x10000 as char then 3 else 4
  }

  /** Length in bytes. */
  function ByteLength(text: string): nat {
    if text == [] then 0 else ByteLength(text[..|text| - 1]) + Utf8Size(text[|text| - 1])
  }

  predicate IsSpace(c: char) {
    || 0x09 as char <= c <= 0x0d as char || c == ' ' || c == 0x85 as char || c == 0xa0 as char
    || c == 0x1680 as char || 0x2000 as char <= c <= 0x200a as char
    || c in {0x2028 as char, 0x2029 as char, 0x202f as char, 0x205f as char, 0x3000 as char}
  }

  predicate IsControl(c: char) {
    c < ' ' || 0x7f as char <= c <= 0x9f as char
  }

  predicate ValidObjectName(name: string) {
    && (exists i :: 0 <= i < |name| && !IsSpace(name[i]))
    && (forall i :: 0 <= i < |name| ==> !IsControl(name[i]) && name[i] !in {'/', '\\', '?', '#'})
    && name != "." && name != ".."
  }

  predicate ValidFileName(name: string) {
    ValidObjectName(name) && ByteLength(name) <= MAX_FILE_NAME
  }

  predicate ValidTemplateName(name: string) {
    ValidObjectName(name) && ByteLength(name) <= 127
  }

  // ---- sanitising ----

  predicate Allowed(c: char) {
    'a' <= c <= 'z' || 'A' <= c <= 'Z' || '0' <= c <= '9' || c == '.' || c == '_' || c == '-'
  }

  predicate Edge(c: char) {
    c == '-' || c == '.'
  }

  /** Each run of other characters becomes one dash, unless a dash precedes it. */
  function Collapse(value: string): (r: string)
    ensures |r| <= |value|
    ensures forall i :: 0 <= i < |r| ==> Allowed(r[i])
  {
    if value == [] then []
    else
      var front := Collapse(value[..|value| - 1]);
      var last := value[|value| - 1];
      if Allowed(last) then front + [last]
      else if front != [] && front[|front| - 1] == '-' then front
      else front + ['-']
  }

  function TrimRight(text: string): (r: string)
    ensures r <= text
    ensures r != [] ==> !Edge(r[|r| - 1])
    ensures forall i :: |r| <= i < |text| ==> Edge(text[i])
  {
    if text == [] || !Edge(text[|text| - 1]) then text else TrimRight(text[..|text| - 1])
  }

  function TrimLeft(text: string): (r: string)
    ensures |r| <= |text| && r == text[|text| - |r|..]
    ensures r != [] ==> !Edge(r[0])
  {
    if text == [] || !Edge(text[0]) then text else TrimLeft(text[1..])
  }

  function Sanitize(value: string): string {
    TrimRight(TrimLeft(Collapse(value)))
  }

  /** The builder loop. */
  method SanitizeName(value: string) returns (r: string)
    ensures r == Sanitize(value)
  {
    var builder: string := [];
    var lastDash := false;
    for i := 0 to |value|
      invariant builder == Collapse(value[..i])
      invariant lastDash <==> builder != [] && builder[|builder| - 1] == '-'
    {
      assert value[..i + 1][..i] == value[..i];
      if Allowed(value[i]) {
        builder := builder + [value[i]];
        lastDash := value[i] == '-';
      } else if !lastDash {
        builder := builder + ['-'];
        lastDash := true;
      }
    }
    assert value[..|value|] == value;
    r := TrimRight(TrimLeft(builder));
  }

  /** What a sanitised prefix looks like. */
  predicate Sanitised(text: string) {
    && (forall i :: 0 <= i < |text| ==> Allowed(text[i]))
    && (text != [] ==> !Edge(text[0]) && !Edge(text[|text| - 1]))
  }

  lemma TrimLeftAllowed(text: string)
    requires forall i :: 0 <= i < |text| ==> Allowed(text[i])
    ensures forall i :: 0 <= i < |TrimLeft(text)| ==> Allowed(TrimLeft(text)[i])
  {
    var left := TrimLeft(text);
    forall i | 0 <= i < |left| ensures Allowed(left[i]) {
      assert left[i] == text[|text| - |left| + i];
    }
  }

  /** Trimming the right end leaves the left end alone. */
  lemma TrimRightShape(text: string)
    requires forall i :: 0 <= i < |text| ==> Allowed(text[i])
    requires text != [] ==> !Edge(text[0])
    ensures Sanitised(TrimRight(text))
  {
    var right := TrimRight(text);
    assert forall i :: 0 <= i < |right| ==> right[i] == text[i];
  }

  lemma SanitizeShape(value: string)
    ensures Sanitised(Sanitize(value)) && |Sanitize(value)| <= |value|
  {
    TrimLeftAllowed(Collapse(value));
    TrimRightShape(TrimLeft(Collapse(value)));
  }

  lemma {:induction false} CollapseFixed(text: string)
    requires forall i :: 0 <= i < |text| ==> Allowed(text[i])
    ensures Collapse(text) == text
  {
    if text != [] {
      CollapseFixed(text[..|text| - 1]);
    }
  }

  lemma CollapseStep(value: string, c: char)
    requires Allowed(c)
    ensures Collapse(value + [c]) == Collapse(value) + [c]
  {
    assert (value + [c])[..|value + [c]| - 1] == value;
  }

  lemma LastApart(left: string, front: string, last: char)
    ensures left + (front + [last]) == (left + front) + [last]
  {
  }

  lemma {:induction false} CollapseAllowed(left: string, right: string)
    requires forall i :: 0 <= i < |right| ==> Allowed(right[i])
    ensures Collapse(left + right) == Collapse(left) + right
  {
    if right == [] {
      assert left + right == left && Collapse(left) + right == Collapse(left);
    } else {
      var front, last := right[..|right| - 1], right[|right| - 1];
      CollapseAllowed(left, front);
      assert right == front + [last];
      LastApart(left, front, last);
      LastApart(Collapse(left), front, last);
      CollapseStep(left + front, last);
    }
  }

  lemma {:induction false} CollapseRun(left: string, run: string)
    requires run != [] && forall i :: 0 <= i < |run| ==> !Allowed(run[i])
    ensures Collapse(left + run) ==
            if Collapse(left) != [] && Collapse(left)[|Collapse(left)| - 1] == '-' then Collapse(left)
            else Collapse(left) + "-"
  {
    var front := run[..|run| - 1];
    assert (left + run)[..|left + run| - 1] == left + front;
    if front == [] {
      assert left + front == left;
    } else {
      CollapseRun(left, front);
    }
  }

  /** A run of other characters between allowed ones becomes exactly one dash. */
  lemma RunBecomesDash(left: string, run: string, right: string)
    requires forall i :: 0 <= i < |left| ==> Allowed(left[i])
    requires left != [] ==> left[|left| - 1] != '-'
    requires run != [] && forall i :: 0 <= i < |run| ==> !Allowed(run[i])
    requires forall i :: 0 <= i < |right| ==> Allowed(right[i])
    ensures Collapse(left + run + right) == left + "-" + right
  {
    CollapseAllowed(left + run, right);
    CollapseRun(left, run);
    CollapseFixed(left);
  }

  lemma SanitizeFixed(text: string)
    requires Sanitised(text)
    ensures Sanitize(text) == text
  {
    CollapseFixed(text);
  }

  lemma SanitizeIdempotent(value: string)
    ensures Sanitize(Sanitize(value)) == Sanitize(value)
  {
    SanitizeShape(value);
    SanitizeFixed(Sanitize(value));
  }

  /** The characters that identify a name: letters, digits and underscores. */
  function Significant(text: string): string {
    if text == [] then []
    else
      Significant(text[..|text| - 1]) +
      (if Allowed(text[|text| - 1]) && !Edge(text[|text| - 1]) then [text[|text| - 1]] else [])
  }

  lemma {:induction false} CollapseSignificant(value: string)
    ensures Significant(Collapse(value)) == Significant(value)
  {
    if value != [] {
      var front, last := value[..|value| - 1], value[|value| - 1];
      CollapseSignificant(front);
      var c := Collapse(front);
      assert (c + [last])[..|c|] == c && (c + ['-'])[..|c|] == c;
    }
  }

  lemma {:induction false} TrimRightSignificant(text: string)
    ensures Significant(TrimRight(text)) == Significant(text)
  {
    if text != [] && Edge(text[|text| - 1]) {
      TrimRightSignificant(text[..|text| - 1]);
    }
  }

  lemma {:induction false} SignificantDropEdge(text: string)
    requires text != [] && Edge(text[0])
    ensures Significant(text[1..]) == Significant(text)
  {
    var n := |text|;
    if n > 1 {
      SignificantDropEdge(text[..n - 1]);
      assert text[..n - 1][1..] == text[1..][..n - 2];
    }
  }

  lemma {:induction false} TrimLeftSignificant(text: string)
    ensures Significant(TrimLeft(text)) == Significant(text)
  {
    if text != [] && Edge(text[0]) {
      SignificantDropEdge(text);
      TrimLeftSignificant(text[1..]);
    }
  }

  /** Sanitising loses no letter, digit or underscore and keeps their order. */
  lemma SanitizeKeepsSignificant(value: string)
    ensures Significant(Sanitize(value)) == Significant(value)
  {
    CollapseSignificant(value);
    TrimLeftSignificant(Collapse(value));
    TrimRightSignificant(TrimLeft(Collapse(value)));
  }

  // ---- managed names ----

  function LimitedName(prefix: string, suffix: string): string
    requires |suffix| <= MAX_FILE_NAME
  {
    var room := MAX_FILE_NAME - |suffix|;
    Cut(prefix, room) + suffix
  }

  function Cut(prefix: string, room: nat): string {
    if |prefix| > room then TrimRight(prefix[..room]) else prefix
  }

  /** The names of one bundle: certificate and key share the first. */
  datatype ManagedNames = ManagedNames(name: string, chainName: string)

  function TrimSpaceRight(text: string): string {
    if text == [] || !IsSpace(text[|text| - 1]) then text else TrimSpaceRight(text[..|text| - 1])
  }

  function TrimSpace(text: string): string {
    if text == [] then []
    else if IsSpace(text[0]) then TrimSpace(text[1..])
    else TrimSpaceRight(text)
  }

  const ALGORITHM := "sha256:"

  function Digest(checksum: string): string {
    if ALGORITHM <= checksum then checksum[|ALGORITHM|..] else checksum
  }

  /** None stands for the three naming errors. The chain name is empty when the
      bundle has no chain. */
  function NamesForPrefix(checksum: string, hasChain: bool, configured: string): Option<ManagedNames> {
    var prefix := Sanitize(TrimSpace(configured));
    var digest := Digest(checksum);
    if TrimSpace(configured) == "" || prefix == "" || |digest| < DIGEST_LENGTH then None
    else Some(ManagedNames(
      LimitedName(prefix, "-" + digest[..DIGEST_LENGTH]),
      if hasChain then LimitedName(prefix, "-chain-" + digest[..DIGEST_LENGTH]) else ""))
  }

  /** Without a configured prefix the template name is used. */
  function NamesForTarget(checksum: string, hasChain: bool, configured: string,
      template: string): Option<ManagedNames> {
    NamesForPrefix(checksum, hasChain, if TrimSpace(configured) == "" then template else TrimSpace(configured))
  }

  predicate LowerHexDigit(c: char) {
    '0' <= c <= '9' || 'a' <= c <= 'f'
  }

  /** A digest as the hash prints it. */
  predicate WellFormedDigest(checksum: string) {
    && |Digest(checksum)| >= DIGEST_LENGTH
    && (forall i :: 0 <= i < |Digest(checksum)| ==> LowerHexDigit(Digest(checksum)[i]))
  }

  lemma {:induction false} AsciiLength(text: string)
    requires forall i :: 0 <= i < |text| ==> text[i] < 0x80 as char
    ensures ByteLength(text) == |text|
  {
    if text != [] {
      AsciiLength(text[..|text| - 1]);
    }
  }

  /** A cut prefix is a non-empty piece of the prefix. */
  lemma CutShape(prefix: string, room: nat)
    requires Sanitised(prefix) && prefix != [] && room > 0
    ensures Cut(prefix, room) <= prefix && Cut(prefix, room) != [] && |Cut(prefix, room)| <= room
    ensures !Edge(Cut(prefix, room)[|Cut(prefix, room)| - 1])
    ensures |prefix| > room ==> forall i :: |Cut(prefix, room)| <= i < room ==> Edge(prefix[i])
  {
    if |prefix| > room {
      var text := prefix[..room];
      assert text[0] == prefix[0];
      assert forall i :: 0 <= i < room ==> text[i] == prefix[i];
    }
  }

  /** Allowed characters make a valid file name. */
  lemma AllowedIsValid(name: string, k: nat)
    requires forall i :: 0 <= i < |name| ==> Allowed(name[i])
    requires k < |name| <= MAX_FILE_NAME && !Edge(name[k])
    ensures ValidFileName(name)
  {
    AsciiLength(name);
    assert !IsSpace(name[k]);
    assert name != "." by { assert name[k] != '.'; }
    assert name != ".." by { assert name[k] != '.'; }
  }

  /** A file name that can be sent and carries the digest at its end. */
  predicate Carries(name: string, digest: string) {
    ValidFileName(name) && |name| > |digest| && name[|name| - |digest|..] == digest
  }

  lemma LimitedIsValid(prefix: string, suffix: string, digest: string)
    requires Sanitised(prefix) && prefix != []
    requires suffix == "-" + digest || suffix == "-chain-" + digest
    requires |digest| == DIGEST_LENGTH && forall i :: 0 <= i < |digest| ==> LowerHexDigit(digest[i])
    ensures Carries(LimitedName(prefix, suffix), digest)
  {
    var kept := Cut(prefix, MAX_FILE_NAME - |suffix|);
    CutShape(prefix, MAX_FILE_NAME - |suffix|);
    var name := kept + suffix;
    assert forall i :: 0 <= i < |suffix| ==> Allowed(suffix[i]);
    assert name[0] == prefix[0];
    AllowedIsValid(name, 0);
  }

  /** Managed names fit, can be sent, and carry the digest at their end. */
  lemma ManagedNamesValid(checksum: string, hasChain: bool, configured: string)
    requires WellFormedDigest(checksum) && Sanitize(TrimSpace(configured)) != "" && TrimSpace(configured) != ""
    ensures NamesForPrefix(checksum, hasChain, configured).Some?
    ensures var names := NamesForPrefix(checksum, hasChain, configured).value;
            && Carries(names.name, Digest(checksum)[..DIGEST_LENGTH])
            && (if hasChain then Carries(names.chainName, Digest(checksum)[..DIGEST_LENGTH]) else names.chainName == "")
  {
    var prefix := Sanitize(TrimSpace(configured));
    var digest := Digest(checksum)[..DIGEST_LENGTH];
    SanitizeShape(TrimSpace(configured));
    LimitedIsValid(prefix, "-" + digest, digest);
    LimitedIsValid(prefix, "-chain-" + digest, digest);
  }

  /** A name ends in one digest only. */
  lemma CarriesOne(name: string, a: string, b: string)
    requires |a| == |b| && a != b
    ensures !(Carries(name, a) && Carries(name, b))
  {
  }

  /** Bundles whose digests differ in the first 128 bits never share a name, whether
      of the pair or of the chain. */
  lemma DigestsSeparateNames(a: string, b: string, aChain: bool, bChain: bool, aPrefix: string, bPrefix: string)
    requires NamesForPrefix(a, aChain, aPrefix).Some? && NamesForPrefix(b, bChain, bPrefix).Some?
    requires WellFormedDigest(a) && WellFormedDigest(b)
    requires Digest(a)[..DIGEST_LENGTH] != Digest(b)[..DIGEST_LENGTH]
    ensures var x, y := NamesForPrefix(a, aChain, aPrefix).value, NamesForPrefix(b, bChain, bPrefix).value;
            && x.name != y.name && x.name != y.chainName && x.chainName != y.name
            && (aChain || bChain ==> x.chainName != y.chainName)
  {
    ManagedNamesValid(a, aChain, aPrefix);
    ManagedNamesValid(b, bChain, bPrefix);
    var x, y := Digest(a)[..DIGEST_LENGTH], Digest(b)[..DIGEST_LENGTH];
    forall name ensures !(Carries(name, x) && Carries(name, y)) {
      CarriesOne(name, x, y);
    }
  }

  // ---- when certificate and chain share a name ----

  predicate ChainTail(prefix: string, at: nat) {
    0 < at && at + 6 <= |prefix| && prefix[at..at + 6] == "-chain" && !Edge(prefix[at - 1])
  }

  /** The one way in which certificate and chain name of a bundle coincide: the
      sanitised prefix is so long that the shorter cut drops exactly a final
      "-chain" that the longer cut keeps. */
  predicate Coincide(prefix: string) {
    || ChainTail(prefix, 206)
    || (ChainTail(prefix, 205) && (|prefix| == 211 || Edge(prefix[211])))
  }

  lemma TrimTo(text: string, n: nat)
    requires 0 < n <= |text| && !Edge(text[n - 1]) && forall i :: n <= i < |text| ==> Edge(text[i])
    ensures TrimRight(text) == text[..n]
  {
  }

  lemma TailOnlyThere(prefix: string)
    requires Sanitised(prefix) && prefix != []
    requires Cut(prefix, 212) == Cut(prefix, 206) + "-chain"
    ensures Coincide(prefix)
  {
    CutShape(prefix, 212);
    CutShape(prefix, 206);
    var m := |Cut(prefix, 206)|;
    assert |Cut(prefix, 212)| == m + 6;
    assert |prefix| > 206;
    assert prefix[m..m + 6] == Cut(prefix, 212)[m..] == "-chain";
    assert prefix[m + 1] == prefix[m..m + 6][1] == 'c';
    assert m + 1 >= 206;
    assert prefix[m - 1] == Cut(prefix, 206)[m - 1];
    assert ChainTail(prefix, m);
    if m == 205 {
      assert |prefix| == 211 || Edge(prefix[211]);
    }
  }

  lemma TailThere(prefix: string)
    requires Sanitised(prefix) && Coincide(prefix)
    ensures Cut(prefix, 212) == Cut(prefix, 206) + "-chain"
  {
    var at := if ChainTail(prefix, 206) then 206 else 205;
    assert prefix[at] == prefix[at..at + 6][0] == '-' && prefix[at + 5] == prefix[at..at + 6][5] == 'n';
    TrimTo(prefix[..206], at);
    assert prefix[..at + 6] == prefix[..at] + prefix[at..at + 6];
    if |prefix| > 212 {
      TrimTo(prefix[..212], at + 6);
    }
  }

  lemma SuffixSplit(a: string, b: string, digest: string)
    ensures a + ("-" + digest) == b + ("-chain-" + digest) <==> a == b + "-chain"
  {
    var tail := "-" + digest;
    assert b + ("-chain-" + digest) == (b + "-chain") + tail;
    if a + tail == (b + "-chain") + tail {
      assert a == (a + tail)[..|a|] && b + "-chain" == ((b + "-chain") + tail)[..|b + "-chain"|];
    }
  }

  /** Certificate and chain name of one bundle are different files unless the
      sanitised prefix ends its cut in "-chain". */
  lemma NamesCoincideExactly(checksum: string, configured: string)
    requires WellFormedDigest(checksum) && NamesForPrefix(checksum, true, configured).Some?
    ensures var names := NamesForPrefix(checksum, true, configured).value;
            names.name == names.chainName <==> Coincide(Sanitize(TrimSpace(configured)))
  {
    var prefix := Sanitize(TrimSpace(configured));
    SanitizeShape(TrimSpace(configured));
    SuffixSplit(Cut(prefix, 212), Cut(prefix, 206), Digest(checksum)[..DIGEST_LENGTH]);
    if Coincide(prefix) {
      TailThere(prefix);
    } else if Cut(prefix, 212) == Cut(prefix, 206) + "-chain" {
      TailOnlyThere(prefix);
    }
  }

  lemma {:induction false} BytesAtLeastCharacters(text: string)
    ensures |text| <= ByteLength(text)
  {
    if text != [] {
      BytesAtLeastCharacters(text[..|text| - 1]);
    }
  }

  lemma {:induction false} TrimSpaceShorter(text: string)
    ensures |TrimSpace(text)| <= |text|
  {
    if text != [] {
      if IsSpace(text[0]) { TrimSpaceShorter(text[1..]); } else { TrimSpaceRightShorter(text); }
    }
  }

  lemma {:induction false} TrimSpaceRightShorter(text: string)
    ensures |TrimSpaceRight(text)| <= |text|
  {
    if text != [] && IsSpace(text[|text| - 1]) {
      TrimSpaceRightShorter(text[..|text| - 1]);
    }
  }

  /** A template name is too short for that. */
  lemma DefaultNamesDiffer(checksum: string, template: string)
    requires WellFormedDigest(checksum) && ValidTemplateName(template)
    requires NamesForTarget(checksum, true, "", template).Some?
    ensures var names := NamesForTarget(checksum, true, "", template).value; names.name != names.chainName
  {
    BytesAtLeastCharacters(template);
    TrimSpaceShorter(template);
    SanitizeShape(TrimSpace(template));
    NamesCoincideExactly(checksum, template);
  }

  lemma LettersThenChain(letters: string)
    requires |letters| == 206 && forall i :: 0 <= i < 206 ==> letters[i] == 'x'
    ensures var prefix := letters + "-chain";
            Sanitised(prefix) && prefix != "" && TrimSpace(prefix) == prefix && ChainTail(prefix, 206)
  {
    var prefix := letters + "-chain";
    forall i | 0 <= i < |prefix| ensures Allowed(prefix[i]) {
      assert prefix[i] == if i < 206 then letters[i] else "-chain"[i - 206];
    }
    assert prefix[0] == letters[0] && prefix[205] == letters[205] && prefix[211] == "-chain"[5];
    assert prefix[206..212] == "-chain";
  }

  /** It does happen: 206 letters followed by "-chain". */
  lemma NamesMayCoincide(checksum: string, letters: string)
    requires WellFormedDigest(checksum)
    requires |letters| == 206 && forall i :: 0 <= i < 206 ==> letters[i] == 'x'
    ensures NamesForPrefix(checksum, true, letters + "-chain").Some?
    ensures var names := NamesForPrefix(checksum, true, letters + "-chain").value; names.name == names.chainName
  {
    var prefix := letters + "-chain";
    LettersThenChain(letters);
    SanitizeFixed(prefix);
    ManagedNamesValid(checksum, true, prefix);
    NamesCoincideExactly(checksum, prefix);
  }
}
