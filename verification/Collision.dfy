/** The check that keeps a managed name from being reused for a different
    certificate, and the serial comparison inside it. */
module Collision {
  import opened Appliance

  /** The identifying metadata of a parsed certificate. A key size of zero is a
      key type without one. */
  datatype Certificate = Certificate(serial: string, commonName: string, notAfter: int, keySize: int)

  // ---- serial numbers ----

  function UpperChar(c: char): char {
    if 'a' <= c <= 'z' then c - 0x20 as char else c
  }

  function Upper(text: string): string {
    seq(|text|, i requires 0 <= i < |text| => UpperChar(text[i]))
  }

  function TrimZeros(text: string): string {
    if text != [] && text[0] == '0' then TrimZeros(text[1..]) else text
  }

  function OrZero(text: string): string {
    if text == "" then "0" else text
  }

  const MARK := "0X"

  function TrimMark(text: string): string {
    if MARK <= text then text[|MARK|..] else text
  }

  /** The serial as the appliance reports it, perhaps marked 0x. */
  function ReportedSerial(serial: string): string {
    OrZero(TrimZeros(TrimMark(Upper(serial))))
  }

  /** The serial of the parsed certificate. */
  function ParsedSerial(serial: string): string {
    OrZero(TrimZeros(Upper(serial)))
  }

  predicate HexDigit(c: char) {
    '0' <= c <= '9' || 'a' <= c <= 'f' || 'A' <= c <= 'F'
  }

  predicate HexText(text: string) {
    forall i :: 0 <= i < |text| ==> HexDigit(text[i])
  }

  function DigitValue(c: char): nat
    requires HexDigit(c)
  {
    if '0' <= c <= '9' then (c - '0') as nat
    else if 'a' <= c <= 'f' then (c - 'a') as nat + 10
    else (c - 'A') as nat + 10
  }

  /** The number that a hexadecimal text denotes. */
  function Value(text: string): nat
    requires HexText(text)
  {
    if text == [] then 0 else 16 * Value(text[..|text| - 1]) + DigitValue(text[|text| - 1])
  }

  predicate Capital(text: string) {
    forall i :: 0 <= i < |text| ==> !('a' <= text[i] <= 'f')
  }

  lemma {:induction false} UpperValue(text: string)
    requires HexText(text)
    ensures HexText(Upper(text)) && Capital(Upper(text)) && Value(Upper(text)) == Value(text)
  {
    if text != [] {
      var n := |text|;
      UpperValue(text[..n - 1]);
      assert Upper(text)[..n - 1] == Upper(text[..n - 1]);
    }
  }

  lemma {:induction false} DropZeroValue(text: string)
    requires HexText(text) && text != [] && text[0] == '0'
    ensures Value(text[1..]) == Value(text)
  {
    var n := |text|;
    if n > 1 {
      DropZeroValue(text[..n - 1]);
      assert text[..n - 1][1..] == text[1..][..n - 2];
    } else {
      assert text[..0] == [];
    }
  }

  predicate NoLeadingZero(text: string) {
    text != [] ==> text[0] != '0'
  }

  lemma {:induction false} TrimZerosValue(text: string)
    requires HexText(text) && Capital(text)
    ensures HexText(TrimZeros(text)) && Capital(TrimZeros(text)) && NoLeadingZero(TrimZeros(text))
    ensures Value(TrimZeros(text)) == Value(text)
  {
    if text != [] && text[0] == '0' {
      DropZeroValue(text);
      TrimZerosValue(text[1..]);
    }
  }

  lemma DigitInjective(a: char, b: char)
    requires HexDigit(a) && HexDigit(b) && !('a' <= a <= 'f') && !('a' <= b <= 'f')
    requires DigitValue(a) == DigitValue(b)
    ensures a == b
  {
  }

  /** A text without leading zeros denotes zero only when empty. */
  lemma {:induction false} PositiveValue(text: string)
    requires HexText(text) && NoLeadingZero(text) && text != []
    ensures Value(text) > 0
  {
    if |text| > 1 {
      PositiveValue(text[..|text| - 1]);
    }
  }

  /** Canonical texts are equal exactly when the numbers are. */
  lemma {:induction false} CanonicalInjective(a: string, b: string)
    requires HexText(a) && HexText(b) && Capital(a) && Capital(b) && NoLeadingZero(a) && NoLeadingZero(b)
    requires Value(a) == Value(b)
    ensures a == b
  {
    if a == [] {
      if b != [] { PositiveValue(b); }
    } else if b == [] {
      PositiveValue(a);
    } else {
      var m, n := |a| - 1, |b| - 1;
      LastDigit(Value(a[..m]), Value(b[..n]), DigitValue(a[m]), DigitValue(b[n]));
      DigitInjective(a[m], b[n]);
      CanonicalInjective(a[..m], b[..n]);
      assert a == a[..m] + [a[m]] && b == b[..n] + [b[n]];
    }
  }

  lemma LastDigit(x: nat, y: nat, c: nat, d: nat)
    requires c < 16 && d < 16 && 16 * x + c == 16 * y + d
    ensures x == y && c == d
  {
  }

  lemma OrZeroInjective(a: string, b: string)
    requires NoLeadingZero(a) && NoLeadingZero(b) && OrZero(a) == OrZero(b)
    ensures a == b
  {
  }

  lemma NormalisedEqual(a: string, b: string)
    requires HexText(a) && HexText(b)
    ensures OrZero(TrimZeros(Upper(a))) == OrZero(TrimZeros(Upper(b))) <==> Value(a) == Value(b)
  {
    UpperValue(a);
    UpperValue(b);
    TrimZerosValue(Upper(a));
    TrimZerosValue(Upper(b));
    if Value(a) == Value(b) {
      CanonicalInjective(TrimZeros(Upper(a)), TrimZeros(Upper(b)));
    } else if OrZero(TrimZeros(Upper(a))) == OrZero(TrimZeros(Upper(b))) {
      OrZeroInjective(TrimZeros(Upper(a)), TrimZeros(Upper(b)));
    }
  }

  lemma MarkTrimmed(mark: string, digits: string)
    requires mark == "0x" || mark == "0X"
    ensures TrimMark(Upper(mark + digits)) == Upper(digits)
  {
    var upper := Upper(mark + digits);
    assert upper[0] == '0' && upper[1] == 'X';
    assert upper[..2] == MARK;
    assert upper[2..] == Upper(digits);
  }

  lemma NoMark(digits: string)
    requires HexText(digits)
    ensures TrimMark(Upper(digits)) == Upper(digits)
  {
    if |digits| >= 2 {
      assert Upper(digits)[1] == UpperChar(digits[1]) != 'X' == MARK[1];
    }
  }

  /** Serial comparison is numeric, whatever case, leading zeros or 0x mark the
      appliance uses. */
  lemma SerialsCompareNumerically(mark: string, digits: string, parsed: string)
    requires mark == "" || mark == "0x" || mark == "0X"
    requires HexText(digits) && HexText(parsed)
    ensures ReportedSerial(mark + digits) == ParsedSerial(parsed) <==> Value(digits) == Value(parsed)
  {
    NormalisedEqual(digits, parsed);
    if mark == "" {
      assert mark + digits == digits;
      NoMark(digits);
    } else {
      MarkTrimmed(mark, digits);
    }
  }

  // ---- the check ----

  predicate SameCertificate(item: CertificateInfo, desired: Certificate) {
    && ReportedSerial(item.serial) == ParsedSerial(desired.serial)
    && item.commonName == desired.commonName
    && (item.notAfter != 0 ==> item.notAfter == desired.notAfter)
    && (item.keySize != 0 && desired.keySize != 0 ==> item.keySize == desired.keySize)
  }

  /** The first inventory item of the name decides; no item is a refusal. */
  predicate CollisionFree(inventory: seq<CertificateInfo>, name: string, desired: Certificate) {
    if inventory == [] then false
    else if inventory[0].name != name then CollisionFree(inventory[1..], name, desired)
    else SameCertificate(inventory[0], desired)
  }

  lemma {:induction false} CollisionFreeFinds(inventory: seq<CertificateInfo>, name: string, desired: Certificate)
    requires CollisionFree(inventory, name, desired)
    ensures exists i :: 0 <= i < |inventory| && inventory[i].name == name
  {
    if inventory[0].name == name {
    } else {
      CollisionFreeFinds(inventory[1..], name, desired);
      var i :| 0 <= i < |inventory| - 1 && inventory[1..][i].name == name;
      assert inventory[i + 1].name == name;
    }
  }

  /** With one set of metadata per name, the check accepts a listed name exactly
      when its metadata fits. */
  lemma {:induction false} CollisionFreeExactly(inventory: seq<CertificateInfo>, name: string, desired: Certificate,
      info: CertificateInfo)
    requires forall i :: 0 <= i < |inventory| && inventory[i].name == name ==> inventory[i] == info
    requires exists i :: 0 <= i < |inventory| && inventory[i].name == name
    ensures CollisionFree(inventory, name, desired) <==> SameCertificate(info, desired)
  {
    if inventory[0].name != name {
      var i :| 0 <= i < |inventory| && inventory[i].name == name;
      assert inventory[1..][i - 1] == inventory[i];
      CollisionFreeExactly(inventory[1..], name, desired, info);
    }
  }
}
