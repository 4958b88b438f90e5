/**
 * The portal-side parsers of iscsi.py: `list` (iscsi.py:48-77), which groups
 * the `Lun:` lines of `iscsi-ls -s` under the preceding `Target:` line and
 * decodes each LUN's size, and the inquiry extractors `page80`, `page83` and
 * `vendor` (iscsi.py:23-45), which pick one field out of `iscsi-inq` output.
 */
module Iscsi {
  import opened Wrappers
  import opened Text

  // Line patterns.

  /** `^Unit Serial Number:\[(.+)\]\n$` */
  function MatchSerial(line: string): (r: Option<string>)
    ensures r.Some? ==> |r.value| > 0 && NoNewline(r.value) && Body(line) == Some("Unit Serial Number:[" + r.value + "]")
  {
    Bracketed("Unit Serial Number:[", line)
  }

  /** `^Designator:\[(.+)\]\n$` */
  function MatchDesignator(line: string): (r: Option<string>)
    ensures r.Some? ==> |r.value| > 0 && NoNewline(r.value) && Body(line) == Some("Designator:[" + r.value + "]")
  {
    Bracketed("Designator:[", line)
  }

  /** `^<opening>(.+)\]\n$`: the text between the opening and the last `]`. */
  function Bracketed(opening: string, line: string): (r: Option<string>)
    ensures r.Some? ==> |r.value| > 0 && NoNewline(r.value) && Body(line) == Some(opening + r.value + "]")
  {
    match Body(line)
    case None => None
    case Some(b) =>
      match StripPrefix(opening, b)
      case None => None
      case Some(rest) =>
        if |rest| >= 2 && rest[|rest| - 1] == ']' && NoNewline(rest[..|rest| - 1]) then
          assert rest == rest[..|rest| - 1] + "]";
          assert b == opening + rest[..|rest| - 1] + "]";
          Some(rest[..|rest| - 1])
        else None
  }

  /** `^Vendor:(.+)\n$` */
  function MatchVendor(line: string): (r: Option<string>)
    ensures r.Some? ==> |r.value| > 0 && NoNewline(r.value) && Body(line) == Some("Vendor:" + r.value)
  {
    match Body(line)
    case None => None
    case Some(b) =>
      match StripPrefix("Vendor:", b)
      case None => None
      case Some(rest) => if |rest| > 0 && NoNewline(rest) then Some(rest) else None
  }

  /** `^Target:(\S+) Portal:(\S+)\n$`, giving the target's IQN and the portal. */
  function MatchPortalTarget(line: string): (r: Option<(string, string)>)
    ensures r.Some? ==> IsToken(r.value.0) && IsToken(r.value.1)
    ensures r.Some? ==> Body(line) == Some("Target:" + r.value.0 + " Portal:" + r.value.1)
  {
    match Body(line)
    case None => None
    case Some(b) =>
      match StripPrefix("Target:", b)
      case None => None
      case Some(rest) =>
        var r := PortalFields(rest);
        if r.Some? then
          assert b == "Target:" + r.value.0 + " Portal:" + r.value.1;
          r
        else None
  }

  /** `(\S+) Portal:(\S+)` over the whole of `rest`. */
  function PortalFields(rest: string): (r: Option<(string, string)>)
    ensures r.Some? ==> IsToken(r.value.0) && IsToken(r.value.1)
    ensures r.Some? ==> rest == r.value.0 + " Portal:" + r.value.1
  {
    var k := Span(rest, NotSpace);
    SpanBounds(rest, NotSpace);
    match StripPrefix(" Portal:", rest[k..])
    case None => None
    case Some(portal) =>
      if k > 0 && IsToken(portal) then
        assert rest == rest[..k] + " Portal:" + portal;
        Some((rest[..k], portal))
      else None
  }

  /** An occurrence of `(Size:` at position `p` of `t`. */
  predicate SizeAt(t: string, p: int) {
    0 <= p && p + 6 <= |t| && t[p..p + 6] == "(Size:"
  }

  /** The last occurrence of `(Size:` at or before position `q`: where the greedy `.*` stops. */
  function LastSizeAtOrBefore(t: string, q: int): (r: Option<nat>)
    ensures r.Some? ==> r.value <= q
    decreases q + 1
  {
    if q < 0 then None
    else if SizeAt(t, q) then Some(q)
    else LastSizeAtOrBefore(t, q - 1)
  }

  /** The search finds the last occurrence at or before `q`, and finds none only when there is none. */
  lemma {:induction false} LastSizeAtOrBeforeSpec(t: string, q: int)
    ensures LastSizeAtOrBefore(t, q).Some? ==>
      SizeAt(t, LastSizeAtOrBefore(t, q).value) &&
      forall p :: LastSizeAtOrBefore(t, q).value < p <= q ==> !SizeAt(t, p)
    ensures LastSizeAtOrBefore(t, q).None? ==> forall p :: p <= q ==> !SizeAt(t, p)
    decreases q + 1
  {
    if q >= 0 && !SizeAt(t, q) {
      LastSizeAtOrBeforeSpec(t, q - 1);
    }
  }

  /**
   * `^Lun:(\d+)\s+.*\(Size:(.+)\)\n$`, giving `int(group 1)` and group 2.
   * After the digits and the whitespace run comes `t`, which `.*\(Size:(.+)\)`
   * must match: it ends in `)`, holds no newline, and the greedy `.*` takes
   * it up to the last `(Size:` that leaves group 2 non-empty.
   */
  function MatchLunSize(line: string): (r: Option<(nat, string)>)
    ensures r.Some? ==> |r.value.1| > 0 && NoNewline(r.value.1)
  {
    match Body(line)
    case None => None
    case Some(b) =>
      match StripPrefix("Lun:", b)
      case None => None
      case Some(rest) => LunFields(rest)
  }

  /** `(\d+)\s+.*\(Size:(.+)\)` over the whole of `rest`. */
  function LunFields(rest: string): (r: Option<(nat, string)>)
    ensures r.Some? ==> |r.value.1| > 0 && NoNewline(r.value.1)
  {
    var k := Span(rest, IsDigit);
    SpanBounds(rest, IsDigit);
    var after := rest[k..];
    var w := Span(after, IsSpace);
    if k == 0 || w == 0 then None
    else
      match SizeField(after[w..])
      case None => None
      case Some(size) => Some((DigitsValue(rest[..k]), size))
  }

  /** `.*\(Size:(.+)\)` over the whole of `t`, giving group 2. */
  function SizeField(t: string): (r: Option<string>)
    ensures r.Some? ==> |r.value| > 0 && NoNewline(r.value)
  {
    if |t| < 8 || t[|t| - 1] != ')' || !NoNewline(t) then None
    else
      match LastSizeAtOrBefore(t, |t| - 8)
      case None => None
      case Some(q) => Some(t[q + 6..|t| - 1])
  }

  // Size decoding (iscsi.py:63-73).

  datatype Unit = Bytes | Kilo | Mega | Giga | Tera

  function Multiplier(u: Unit): nat {
    match u
    case Bytes => 1
    case Kilo => 1024
    case Mega => 1024 * 1024
    case Giga => 1024 * 1024 * 1024
    case Tera => 1024 * 1024 * 1024 * 1024
  }

  function Suffix(u: Unit): string {
    match u
    case Bytes => ""
    case Kilo => "k"
    case Mega => "M"
    case Giga => "G"
    case Tera => "T"
  }

  /** `long(text)` failing: the size text is not a number. */
  datatype ListError = ValueError(text: string)

  /** `long(s)`, restricted to an optional minus sign and decimal digits. */
  function Long(s: string): Result<int, ListError> {
    match ParseInt(s)
    case None => Err(ValueError(s))
    case Some(i) => Ok(i)
  }

  /** The unit a size string ends in, as the `endswith` tests pick it. */
  function UnitOf(size: string): (u: Unit)
    ensures |Suffix(u)| <= |size| && size[|size| - |Suffix(u)|..] == Suffix(u)
    ensures u == Bytes <==> |size| == 0 || size[|size| - 1] !in "kMGT"
    ensures u != Bytes ==> Suffix(u) == [size[|size| - 1]]
  {
    if |size| > 0 && size[|size| - 1] == 'k' then Kilo
    else if |size| > 0 && size[|size| - 1] == 'M' then Mega
    else if |size| > 0 && size[|size| - 1] == 'G' then Giga
    else if |size| > 0 && size[|size| - 1] == 'T' then Tera
    else Bytes
  }

  /** The number of bytes a human-readable size stands for, in binary multiples. */
  function DecodeSize(size: string): Result<int, ListError> {
    var u := UnitOf(size);
    match Long(size[..|size| - |Suffix(u)|])
    case Err(e) => Err(e)
    case Ok(n) => Ok(n * Multiplier(u))
  }

  /** A plain number ends in a digit, so it carries no suffix. */
  lemma PlainNumber(n: nat)
    ensures UnitOf(NatToDigits(n)) == Bytes && Long(NatToDigits(n)) == Ok(n)
  {
    var digits := NatToDigits(n);
    assert IsDigit(digits[0]) && IsDigit(digits[|digits| - 1]);
  }

  /** A unit suffix after any text is found by the `endswith` tests and cut off again. */
  lemma SuffixedText(d: string, u: Unit)
    requires u != Bytes
    ensures UnitOf(d + Suffix(u)) == u
    ensures (d + Suffix(u))[..|d + Suffix(u)| - 1] == d
  {
    var s := d + Suffix(u);
    assert |Suffix(u)| == 1;
    assert s[|s| - 1] == Suffix(u)[0];
    assert s[..|d|] == d;
  }

  /** A number followed by a unit suffix decodes to the number times the unit's power of 1024. */
  lemma DecodeSizeOfUnit(n: nat, u: Unit)
    ensures DecodeSize(NatToDigits(n) + Suffix(u)) == Ok(n * Multiplier(u))
  {
    PlainNumber(n);
    if u == Bytes {
      assert NatToDigits(n) + Suffix(u) == NatToDigits(n);
    } else {
      SuffixedText(NatToDigits(n), u);
    }
  }

  /** `"512"` is 512 bytes and `"2M"` is 2097152 bytes. */
  lemma DecodeSizeExamples()
    ensures DecodeSize("512") == Ok(512)
    ensures DecodeSize("2M") == Ok(2097152)
  {
    assert NatToDigits(512) == "512";
    DecodeSizeOfUnit(512, Bytes);
    assert "512" + "" == "512";
    assert NatToDigits(2) == "2";
    DecodeSizeOfUnit(2, Mega);
    assert "2" + "M" == "2M";
  }

  // The lines as the tools print them, which each pattern reads back.

  function FormatPortalTarget(iqn: string, portal: string): string {
    "Target:" + iqn + " Portal:" + portal + "\n"
  }

  /** A `Lun:` line: the LUN number, a space, a description, and the size in parentheses. */
  function FormatLunSize(lun: nat, desc: string, size: string): string {
    "Lun:" + NatToDigits(lun) + " " + desc + "(Size:" + size + ")\n"
  }

  function FormatSerial(sn: string): string {
    "Unit Serial Number:[" + sn + "]\n"
  }

  function FormatDesignator(id: string): string {
    "Designator:[" + id + "]\n"
  }

  function FormatVendor(vendor: string): string {
    "Vendor:" + vendor + "\n"
  }

  predicate NoParen(s: string) {
    forall i :: 0 <= i < |s| ==> s[i] != '('
  }

  lemma MatchFormatPortalTarget(iqn: string, portal: string)
    requires IsToken(iqn) && IsToken(portal)
    ensures MatchPortalTarget(FormatPortalTarget(iqn, portal)) == Some((iqn, portal))
  {
    var rest := iqn + " Portal:" + portal;
    assert FormatPortalTarget(iqn, portal) == ("Target:" + rest) + "\n";
    BodyOfLine("Target:" + rest);
    StripPrefixConcat("Target:", rest);
    PortalFieldsOf(iqn, portal);
  }

  lemma PortalFieldsOf(iqn: string, portal: string)
    requires IsToken(iqn) && IsToken(portal)
    ensures PortalFields(iqn + " Portal:" + portal) == Some((iqn, portal))
  {
    var rest := iqn + " Portal:" + portal;
    assert rest == iqn + (" Portal:" + portal);
    SpanOfConcat(iqn, " Portal:" + portal, NotSpace);
    assert rest[..|iqn|] == iqn;
    assert rest[|iqn|..] == " Portal:" + portal;
    StripPrefixConcat(" Portal:", portal);
  }

  /** The last `(Size:` at or before `hi`, found from the ensures of the search. */
  lemma {:induction false} LastSizeIs(t: string, q: nat, hi: int)
    requires q <= hi && SizeAt(t, q)
    requires forall p :: q < p <= hi ==> !SizeAt(t, p)
    ensures LastSizeAtOrBefore(t, hi) == Some(q)
    decreases hi
  {
    if hi > q {
      LastSizeIs(t, q, hi - 1);
    }
  }

  /** What follows the whitespace of a formatted `Lun:` line gives back its size text. */
  lemma SizeTail(desc: string, size: string)
    requires NoNewline(desc) && |size| > 0 && NoNewline(size) && NoParen(size)
    ensures SizeField(desc + "(Size:" + size + ")") == Some(size)
  {
    var t := desc + "(Size:" + size + ")";
    var q := |desc|;
    assert NoNewline(t) by {
      forall i | 0 <= i < |t| ensures t[i] != '\n' {
        if i < |desc| {
          assert t[i] == desc[i];
        } else if i >= |desc| + 6 && i < |t| - 1 {
          assert t[i] == size[i - |desc| - 6];
        }
      }
    }
    assert t[q..q + 6] == "(Size:";
    forall p | q < p < |t| - 1
      ensures t[p] != '('
    {
      if p < q + 6 {
        assert t[p] == "(Size:"[p - q];
      } else {
        assert t[p] == size[p - q - 6];
      }
    }
    NoSizeAtBetween(t, q, |t| - 8);
    LastSizeIs(t, q, |t| - 8);
    SizeFieldAt(t, q);
    assert t[q + 6..|t| - 1] == size;
  }

  /** Between two positions holding no `(` there is no `(Size:`. */
  lemma NoSizeAtBetween(t: string, q: nat, hi: int)
    requires hi < |t|
    requires forall p :: q < p <= hi ==> t[p] != '('
    ensures forall p :: q < p <= hi ==> !SizeAt(t, p)
  {
    forall p | q < p <= hi
      ensures !SizeAt(t, p)
    {
      if p + 6 <= |t| {
        assert t[p..p + 6][0] == t[p];
      }
    }
  }

  /** The size field once the search has found its `(Size:`. */
  lemma SizeFieldAt(t: string, q: nat)
    requires |t| >= 8 && t[|t| - 1] == ')' && NoNewline(t)
    requires LastSizeAtOrBefore(t, |t| - 8) == Some(q)
    ensures SizeField(t) == Some(t[q + 6..|t| - 1])
  {
  }

  lemma LunFieldsOfFormat(lun: nat, desc: string, size: string)
    requires desc == [] || !IsSpace(desc[0])
    requires NoNewline(desc) && |size| > 0 && NoNewline(size) && NoParen(size)
    ensures LunFields(NatToDigits(lun) + (" " + (desc + "(Size:" + size + ")"))) == Some((lun, size))
  {
    var digits := NatToDigits(lun);
    var t := desc + "(Size:" + size + ")";
    var after := " " + t;
    var rest := digits + after;
    SpanOfConcat(digits, after, IsDigit);
    assert rest[..|digits|] == digits && rest[|digits|..] == after;
    SpanOfConcat(" ", t, IsSpace);
    assert after[1..] == t;
    SizeTail(desc, size);
  }

  /** A `Lun:` line whose text ends in `)` is matched by its fields alone. */
  /**
   * `t` is a description, `(Size:`, the size text and `)`, where the `(Size:`
   * is the last one that leaves a non-empty size text (`LastSizeAtOrBeforeSpec`).
   */
  predicate LastSizeSplit(t: string, desc: string, size: string) {
    t == desc + "(Size:" + size + ")" && LastSizeAtOrBefore(t, |t| - 8) == Some(|desc|)
  }

  /** What `.*\(Size:(.+)\)` matched: the size text follows the last usable `(Size:`. */
  lemma SizeFieldSound(t: string)
    ensures SizeField(t).Some? ==> exists desc :: LastSizeSplit(t, desc, SizeField(t).value)
  {
    if SizeField(t).Some? {
      var q := LastSizeAtOrBefore(t, |t| - 8).value;
      LastSizeAtOrBeforeSpec(t, |t| - 8);
      var desc, size := t[..q], t[q + 6..|t| - 1];
      assert t == desc + t[q..q + 6] + size + t[|t| - 1..];
      assert LastSizeSplit(t, desc, size);
    }
  }

  /** What `(\d+)\s+` took from `rest`: the LUN's digits and a whitespace run, then the size part. */
  lemma LunFieldsSound(rest: string)
    ensures LunFields(rest).Some? ==>
      exists d, w, t ::
        && IsDigits(d) && DigitsValue(d) == LunFields(rest).value.0 && |w| > 0 && AllSpace(w)
        && rest == d + w + t && SizeField(t) == Some(LunFields(rest).value.1)
  {
    if LunFields(rest).Some? {
      var k := Span(rest, IsDigit);
      SpanBounds(rest, IsDigit);
      var after := rest[k..];
      var n := Span(after, IsSpace);
      SpanBounds(after, IsSpace);
      var d, w, t := rest[..k], after[..n], after[n..];
      assert AllSpace(w);
      assert rest == d + w + t;
    }
  }

  /**
   * A matched `Lun:` line is `Lun:`, the digits of the LUN number, a
   * whitespace run, a description, `(Size:`, the size text and `)`, with no
   * later usable `(Size:`.
   */
  lemma MatchLunSizeSound(line: string)
    ensures MatchLunSize(line).Some? ==> |MatchLunSize(line).value.1| > 0 && NoNewline(MatchLunSize(line).value.1)
    ensures MatchLunSize(line).Some? ==>
      exists d, w, t, desc ::
        && IsDigits(d) && DigitsValue(d) == MatchLunSize(line).value.0 && |w| > 0 && AllSpace(w)
        && Body(line) == Some("Lun:" + d + w + t) && LastSizeSplit(t, desc, MatchLunSize(line).value.1)
  {
    if MatchLunSize(line).Some? {
      var b := Body(line).value;
      var rest := StripPrefix("Lun:", b).value;
      var r := LunFields(rest).value;
      LunFieldsSound(rest);
      var d, w, t :| IsDigits(d) && DigitsValue(d) == r.0 && |w| > 0 && AllSpace(w) && rest == d + w + t && SizeField(t) == Some(r.1);
      LunLineSound(b, rest, d, w, t, r.1);
    }
  }

  lemma LunLineSound(b: string, rest: string, d: string, w: string, t: string, size: string)
    requires StripPrefix("Lun:", b) == Some(rest) && rest == d + w + t && SizeField(t) == Some(size)
    ensures b == "Lun:" + d + w + t
    ensures exists desc :: LastSizeSplit(t, desc, size)
  {
    SizeFieldSound(t);
  }

  lemma MatchLunLine(rest: string)
    requires |rest| > 0 && rest[|rest| - 1] == ')'
    ensures MatchLunSize("Lun:" + rest + "\n") == LunFields(rest)
  {
    var b := "Lun:" + rest;
    assert b[|b| - 1] == ')';
    BodyOfLine(b);
    StripPrefixConcat("Lun:", rest);
  }

  lemma MatchFormatLunSize(lun: nat, desc: string, size: string)
    requires desc == [] || !IsSpace(desc[0])
    requires NoNewline(desc) && |size| > 0 && NoNewline(size) && NoParen(size)
    ensures MatchLunSize(FormatLunSize(lun, desc, size)) == Some((lun, size))
  {
    var rest := NatToDigits(lun) + (" " + (desc + "(Size:" + size + ")"));
    assert FormatLunSize(lun, desc, size) == "Lun:" + rest + "\n";
    assert rest[|rest| - 1] == ')';
    MatchLunLine(rest);
    LunFieldsOfFormat(lun, desc, size);
  }

  lemma MatchFormatSerial(sn: string)
    requires |sn| > 0 && NoNewline(sn)
    ensures MatchSerial(FormatSerial(sn)) == Some(sn)
  {
    BracketedFormat("Unit Serial Number:[", sn);
    assert FormatSerial(sn) == "Unit Serial Number:[" + sn + "]" + "\n";
  }

  lemma MatchFormatDesignator(id: string)
    requires |id| > 0 && NoNewline(id)
    ensures MatchDesignator(FormatDesignator(id)) == Some(id)
  {
    BracketedFormat("Designator:[", id);
    assert FormatDesignator(id) == "Designator:[" + id + "]" + "\n";
  }

  lemma BracketedFormat(opening: string, text: string)
    requires |text| > 0 && NoNewline(text)
    ensures Bracketed(opening, opening + text + "]" + "\n") == Some(text)
  {
    var rest := text + "]";
    assert opening + text + "]" == opening + rest;
    BodyOfLine(opening + rest);
    StripPrefixConcat(opening, rest);
    assert rest[..|rest| - 1] == text;
  }

  lemma MatchFormatVendor(vendor: string)
    requires |vendor| > 0 && NoNewline(vendor)
    ensures MatchVendor(FormatVendor(vendor)) == Some(vendor)
  {
    assert FormatVendor(vendor) == ("Vendor:" + vendor) + "\n";
    BodyOfLine("Vendor:" + vendor);
    StripPrefixConcat("Vendor:", vendor);
  }

  // The inquiry extractors (iscsi.py:23-45).

  /** The value `f` gives the first line it matches, or `None` when it matches none. */
  function FirstMatch(lines: seq<string>, f: string -> Option<string>): (r: Option<string>)
    ensures r.None? <==> forall i :: 0 <= i < |lines| ==> f(lines[i]).None?
    ensures r.Some? ==> exists i :: 0 <= i < |lines| && f(lines[i]) == r && forall j :: 0 <= j < i ==> f(lines[j]).None?
  {
    if lines == [] then None
    else if f(lines[0]).Some? then f(lines[0])
    else
      var r := FirstMatch(lines[1..], f);
      assert forall i :: 0 < i < |lines| ==> lines[1..][i - 1] == lines[i];
      r
  }

  /** `page80`: the unit serial number of the first `Unit Serial Number:[...]` line (VPD page 0x80). */
  function Page80(lines: seq<string>): (r: Option<string>)
    ensures r.None? <==> forall i :: 0 <= i < |lines| ==> MatchSerial(lines[i]).None?
    ensures r.Some? ==> exists i :: 0 <= i < |lines| && MatchSerial(lines[i]) == r && forall j :: 0 <= j < i ==> MatchSerial(lines[j]).None?
  {
    FirstMatch(lines, MatchSerial)
  }

  /** `vendor`: the text after `Vendor:` on the first line that has it. */
  function Vendor(lines: seq<string>): (r: Option<string>)
    ensures r.None? <==> forall i :: 0 <= i < |lines| ==> MatchVendor(lines[i]).None?
    ensures r.Some? ==> exists i :: 0 <= i < |lines| && MatchVendor(lines[i]) == r && forall j :: 0 <= j < i ==> MatchVendor(lines[j]).None?
  {
    FirstMatch(lines, MatchVendor)
  }

  /** `m.group(1)` with `m` being `None`. */
  datatype InquiryError = AttributeError

  /**
   * `page83` as written: the loop body returns on its first iteration, so only
   * the first line is read, and a first line that does not match raises.
   */
  function Page83AsWritten(lines: seq<string>): (r: Result<Option<string>, InquiryError>)
    ensures lines == [] <==> r == Ok(None)
    ensures r.Err? <==> lines != [] && MatchDesignator(lines[0]).None?
    ensures r.Ok? && lines != [] ==> r.value == MatchDesignator(lines[0])
  {
    if lines == [] then Ok(None)
    else
      match MatchDesignator(lines[0])
      case None => Err(AttributeError)
      case Some(id) => Ok(Some(id))
  }

  /** `page83` as intended: the identifier of the first `Designator:[...]` line (VPD page 0x83). */
  function Page83(lines: seq<string>): (r: Option<string>)
    ensures r.None? <==> forall i :: 0 <= i < |lines| ==> MatchDesignator(lines[i]).None?
    ensures r.Some? ==> exists i :: 0 <= i < |lines| && MatchDesignator(lines[i]) == r && forall j :: 0 <= j < i ==> MatchDesignator(lines[j]).None?
  {
    FirstMatch(lines, MatchDesignator)
  }

  /** Where the first line is a designator, or there is no output, both readings agree. */
  lemma Page83AgreesOnFirstLine(lines: seq<string>)
    requires lines == [] || MatchDesignator(lines[0]).Some?
    ensures Page83AsWritten(lines) == Ok(Page83(lines))
  {
  }

  /** A designator after a first line of another kind: as written `page83` raises instead of finding it. */
  lemma Page83MissesLaterDesignator()
    ensures Page83AsWritten(["Identification descriptors:\n", FormatDesignator("abc")]) == Err(AttributeError)
    ensures Page83(["Identification descriptors:\n", FormatDesignator("abc")]) == Some("abc")
  {
    var header := "Identification descriptors:\n";
    assert header[0] != "Designator:["[0];
    assert MatchDesignator(header).None?;
    MatchFormatDesignator("abc");
    var lines := [header, FormatDesignator("abc")];
    assert lines[1..] == [FormatDesignator("abc")];
  }
}
