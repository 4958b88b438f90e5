/**
 * The line patterns of tgtadm.py's two listing parsers (`query_account`,
 * tgtadm.py:29 and 34; `query_target`, tgtadm.py:51-89), each written out as
 * the exact set of lines Python's `re.match` accepts and the groups it returns,
 * together with the line as `tgtadm` prints it, which each pattern reads back.
 */
module TgtadmLines {
  import opened Wrappers
  import opened Text

  /** `^Account list:\n$` */
  predicate MatchAccountHeader(line: string) {
    Body(line) == Some("Account list:")
  }

  /** The text after the leading `\s*` of the indented patterns. */
  function Lead(line: string): Option<string> {
    match Body(line)
    case None => None
    case Some(b) => Some(TrimLeft(b))
  }

  /** `^\s*(\S+)\n$` (an account name or an ACL entry): one bare token, possibly indented. */
  function MatchToken(line: string): (r: Option<string>)
    ensures r.Some? ==> IsToken(r.value) && Lead(line) == r
  {
    match Lead(line)
    case None => None
    case Some(t) => if IsToken(t) then Some(t) else None
  }

  /** `Target (\d+): (\S+)\n$`, giving `int(group 1)` and group 2. */
  function MatchTarget(line: string): (r: Option<(nat, string)>)
    ensures r.Some? ==> IsToken(r.value.1)
  {
    match Body(line)
    case None => None
    case Some(b) =>
      match StripPrefix("Target ", b)
      case None => None
      case Some(rest) =>
        var k := Span(rest, IsDigit);
        SpanBounds(rest, IsDigit);
        match StripPrefix(": ", rest[k..])
        case None => None
        case Some(iqn) =>
          if k > 0 && IsToken(iqn) then Some((DigitsValue(rest[..k]), iqn)) else None
  }

  /** `\s*LUN: (\d+)\n$`, giving `int(group 1)`. */
  function MatchLun(line: string): Option<nat> {
    match Lead(line)
    case None => None
    case Some(t) =>
      match StripPrefix("LUN: ", t)
      case None => None
      case Some(d) => if IsDigits(d) then Some(DigitsValue(d)) else None
  }

  /** `(\S+)\s+(\S+)` over the whole of `rest`: two tokens and the whitespace between them. */
  function SplitTwoTokens(rest: string): (r: Option<(string, string)>)
    ensures r.Some? ==> IsToken(r.value.0) && IsToken(r.value.1)
  {
    var k := Span(rest, NotSpace);
    SpanBounds(rest, NotSpace);
    var after := rest[k..];
    var w := Span(after, IsSpace);
    var second := after[w..];
    if k > 0 && w > 0 && IsToken(second) then Some((rest[..k], second)) else None
  }

  /** `\s*SCSI ID: (\S+)\s+(\S+)\n$`, giving the vendor and the identifier. */
  function MatchScsiId(line: string): (r: Option<(string, string)>)
    ensures r.Some? ==> IsToken(r.value.0) && IsToken(r.value.1)
  {
    match Lead(line)
    case None => None
    case Some(t) =>
      match StripPrefix("SCSI ID: ", t)
      case None => None
      case Some(rest) => SplitTwoTokens(rest)
  }

  /** `\s*SCSI SN: (\S+)\n$` */
  function MatchScsiSn(line: string): (r: Option<string>)
    ensures r.Some? ==> IsToken(r.value) && Lead(line) == Some("SCSI SN: " + r.value)
  {
    match Lead(line)
    case None => None
    case Some(t) =>
      match StripPrefix("SCSI SN: ", t)
      case None => None
      case Some(sn) => if IsToken(sn) then Some(sn) else None
  }

  /** `\s*Backing store path: (\S+)\n$` */
  function MatchBackingPath(line: string): (r: Option<string>)
    ensures r.Some? ==> IsToken(r.value) && Lead(line) == Some("Backing store path: " + r.value)
  {
    match Lead(line)
    case None => None
    case Some(t) =>
      match StripPrefix("Backing store path: ", t)
      case None => None
      case Some(p) => if IsToken(p) then Some(p) else None
  }

  /** `\s*ACL information:\n$` */
  predicate MatchAclHeader(line: string) {
    Lead(line) == Some("ACL information:")
  }

  /** How many of the patterns `query_target` tests accept `line`. */
  function MatchCount(line: string): nat {
    (if MatchTarget(line).Some? then 1 else 0)
    + (if MatchToken(line).Some? then 1 else 0)
    + (if MatchLun(line).Some? then 1 else 0)
    + (if MatchScsiId(line).Some? then 1 else 0)
    + (if MatchScsiSn(line).Some? then 1 else 0)
    + (if MatchBackingPath(line).Some? then 1 else 0)
    + (if MatchAclHeader(line) then 1 else 0)
  }

  lemma PrefixChars(p: string, s: string)
    requires StripPrefix(p, s).Some?
    ensures |p| <= |s| && forall i :: 0 <= i < |p| ==> s[i] == p[i]
  {
    assert s[..|p|] == p;
  }

  /** A `Target` line is never indented, so its text is its own `Lead`. */
  lemma TargetIsLead(line: string)
    requires MatchTarget(line).Some?
    ensures Lead(line) == Body(line)
    ensures |Body(line).value| >= 7 && Body(line).value[0] == 'T' && Body(line).value[6] == ' '
  {
    var b := Body(line).value;
    PrefixChars("Target ", b);
  }

  // What each pattern fixes about a line's text: its first letter and one of its spaces.

  lemma LunShape(line: string)
    requires MatchLun(line).Some?
    ensures Lead(line).Some? && |Lead(line).value| >= 5 && Lead(line).value[0] == 'L' && Lead(line).value[4] == ' '
  {
    PrefixChars("LUN: ", Lead(line).value);
  }

  lemma ScsiIdShape(line: string)
    requires MatchScsiId(line).Some?
    ensures Lead(line).Some? && |Lead(line).value| >= 9 && Lead(line).value[0] == 'S'
    ensures Lead(line).value[5] == 'I' && Lead(line).value[4] == ' '
  {
    PrefixChars("SCSI ID: ", Lead(line).value);
  }

  lemma ScsiSnShape(line: string)
    requires MatchScsiSn(line).Some?
    ensures Lead(line).Some? && |Lead(line).value| >= 9 && Lead(line).value[0] == 'S'
    ensures Lead(line).value[5] == 'S' && Lead(line).value[4] == ' '
  {
    PrefixChars("SCSI SN: ", Lead(line).value);
  }

  lemma BackingPathShape(line: string)
    requires MatchBackingPath(line).Some?
    ensures Lead(line).Some? && |Lead(line).value| >= 20 && Lead(line).value[0] == 'B' && Lead(line).value[7] == ' '
  {
    PrefixChars("Backing store path: ", Lead(line).value);
  }

  /** No line matches two of the patterns `query_target` tests. */
  lemma PatternsExclusive(line: string)
    ensures MatchCount(line) <= 1
  {
    if MatchTarget(line).Some? {
      TargetIsLead(line);
    }
    if MatchLun(line).Some? {
      LunShape(line);
    }
    if MatchScsiId(line).Some? {
      ScsiIdShape(line);
    }
    if MatchScsiSn(line).Some? {
      ScsiSnShape(line);
    }
    if MatchBackingPath(line).Some? {
      BackingPathShape(line);
    }
    if MatchAclHeader(line) {
      assert Lead(line).value[0] == 'A' && Lead(line).value[3] == ' ';
    }
  }

  /** A line of `tgtadm --op show --mode target` output, by the one pattern it matches. */
  datatype LineKind =
    | TargetHeader(tid: nat, iqn: string)
    | LunHeader(lun: nat)
    | ScsiIdField(vendor: string, scsiId: string)
    | ScsiSnField(sn: string)
    | BackingPathField(path: string)
    | AclHeader
    | BareToken(word: string)
    | Unrecognised

  function Classify(line: string): (k: LineKind)
    ensures k.TargetHeader? <==> MatchTarget(line).Some?
    ensures k.BareToken? <==> MatchToken(line).Some?
    ensures k.LunHeader? <==> MatchLun(line).Some?
    ensures k.ScsiIdField? <==> MatchScsiId(line).Some?
    ensures k.ScsiSnField? <==> MatchScsiSn(line).Some?
    ensures k.BackingPathField? <==> MatchBackingPath(line).Some?
    ensures k.AclHeader? <==> MatchAclHeader(line)
    ensures k.TargetHeader? ==> MatchTarget(line) == Some((k.tid, k.iqn))
    ensures k.LunHeader? ==> MatchLun(line) == Some(k.lun)
    ensures k.ScsiIdField? ==> MatchScsiId(line) == Some((k.vendor, k.scsiId))
    ensures k.ScsiSnField? ==> MatchScsiSn(line) == Some(k.sn)
    ensures k.BackingPathField? ==> MatchBackingPath(line) == Some(k.path)
    ensures k.BareToken? ==> MatchToken(line) == Some(k.word)
  {
    PatternsExclusive(line);
    if MatchTarget(line).Some? then TargetHeader(MatchTarget(line).value.0, MatchTarget(line).value.1)
    else if MatchLun(line).Some? then LunHeader(MatchLun(line).value)
    else if MatchScsiId(line).Some? then ScsiIdField(MatchScsiId(line).value.0, MatchScsiId(line).value.1)
    else if MatchScsiSn(line).Some? then ScsiSnField(MatchScsiSn(line).value)
    else if MatchBackingPath(line).Some? then BackingPathField(MatchBackingPath(line).value)
    else if MatchAclHeader(line) then AclHeader
    else if MatchToken(line).Some? then BareToken(MatchToken(line).value)
    else Unrecognised
  }

  // The lines as tgtadm prints them.

  function FormatTarget(tid: nat, iqn: string): string {
    "Target " + NatToDigits(tid) + ": " + iqn + "\n"
  }

  function FormatLun(indent: string, lun: nat): string {
    indent + "LUN: " + NatToDigits(lun) + "\n"
  }

  function FormatScsiId(indent: string, vendor: string, gap: string, scsiId: string): string {
    indent + "SCSI ID: " + vendor + gap + scsiId + "\n"
  }

  function FormatScsiSn(indent: string, sn: string): string {
    indent + "SCSI SN: " + sn + "\n"
  }

  function FormatBackingPath(indent: string, path: string): string {
    indent + "Backing store path: " + path + "\n"
  }

  function FormatAclHeader(indent: string): string {
    indent + "ACL information:\n"
  }

  function FormatEntry(indent: string, word: string): string {
    indent + word + "\n"
  }
  /** One entry line per word, in order: the ACL entries or the account names. */
  function EntryLines(indent: string, words: seq<string>): seq<string> {
    if words == [] then [] else EntryLines(indent, words[..|words| - 1]) + [FormatEntry(indent, words[|words| - 1])]
  }

  /** The entry lines are one per word, in order. */
  lemma {:induction false} EntryLinesAt(indent: string, words: seq<string>)
    ensures |EntryLines(indent, words)| == |words|
    ensures forall i :: 0 <= i < |words| ==> EntryLines(indent, words)[i] == FormatEntry(indent, words[i])
    decreases |words|
  {
    if words != [] {
      var init := words[..|words| - 1];
      EntryLinesAt(indent, init);
      assert forall i :: 0 <= i < |init| ==> init[i] == words[i];
    }
  }

  /** The text of an indented line, when that text starts with a visible character. */
  lemma LeadOfFormatted(indent: string, text: string)
    requires AllSpace(indent)
    requires text != [] && !IsSpace(text[0]) && text[|text| - 1] != '\n'
    ensures Lead(indent + text + "\n") == Some(text)
  {
    BodyOfLine(indent + text);
    TrimLeftSpaces(indent, text);
  }

  // Where each pattern's groups come from in the line it matched.

  /** A matched `Target` line is `Target `, a digit run holding the tid, `: ` and the IQN, a single token. */
  lemma MatchTargetSound(line: string)
    ensures MatchTarget(line).Some? ==> IsToken(MatchTarget(line).value.1)
    ensures MatchTarget(line).Some? ==>
      exists d :: IsDigits(d) && DigitsValue(d) == MatchTarget(line).value.0 &&
        Body(line) == Some("Target " + d + ": " + MatchTarget(line).value.1)
  {
    if MatchTarget(line).Some? {
      var b := Body(line).value;
      var rest := StripPrefix("Target ", b).value;
      var k := Span(rest, IsDigit);
      SpanBounds(rest, IsDigit);
      var iqn := StripPrefix(": ", rest[k..]).value;
      var d := rest[..k];
      assert rest == d + rest[k..];
      assert b == "Target " + d + ": " + iqn;
    }
  }

  /** A matched `LUN:` line is, after its indent, `LUN: ` and a digit run holding the LUN id. */
  lemma MatchLunSound(line: string)
    ensures MatchLun(line).Some? ==>
      exists d :: IsDigits(d) && DigitsValue(d) == MatchLun(line).value && Lead(line) == Some("LUN: " + d)
  {
    if MatchLun(line).Some? {
      var d := StripPrefix("LUN: ", Lead(line).value).value;
      assert Lead(line) == Some("LUN: " + d);
    }
  }

  /** Two tokens split by `(\S+)\s+(\S+)` are the text around a non-empty whitespace run. */
  lemma SplitTwoTokensSound(rest: string)
    ensures SplitTwoTokens(rest).Some? ==>
      exists w :: |w| > 0 && AllSpace(w) && rest == SplitTwoTokens(rest).value.0 + w + SplitTwoTokens(rest).value.1
  {
    if SplitTwoTokens(rest).Some? {
      var k := Span(rest, NotSpace);
      var after := rest[k..];
      var n := Span(after, IsSpace);
      SpanBounds(after, IsSpace);
      var w := after[..n];
      assert AllSpace(w);
      assert after == w + after[n..];
      assert rest == rest[..k] + w + after[n..];
    }
  }

  /** A matched `SCSI ID:` line is, after its indent, `SCSI ID: `, the vendor, whitespace and the id, both tokens. */
  lemma MatchScsiIdSound(line: string)
    ensures MatchScsiId(line).Some? ==> IsToken(MatchScsiId(line).value.0) && IsToken(MatchScsiId(line).value.1)
    ensures MatchScsiId(line).Some? ==>
      exists w :: |w| > 0 && AllSpace(w) &&
        Lead(line) == Some("SCSI ID: " + MatchScsiId(line).value.0 + w + MatchScsiId(line).value.1)
  {
    if MatchScsiId(line).Some? {
      var t := Lead(line).value;
      var rest := StripPrefix("SCSI ID: ", t).value;
      var r := SplitTwoTokens(rest).value;
      SplitTwoTokensSound(rest);
      var w :| |w| > 0 && AllSpace(w) && rest == r.0 + w + r.1;
      PrefixOfThree("SCSI ID: ", t, r.0, w, r.1);
    }
  }

  lemma PrefixOfThree(p: string, t: string, a: string, b: string, c: string)
    requires StripPrefix(p, t) == Some(a + b + c)
    ensures t == p + a + b + c
  {
  }

  lemma MatchFormatTarget(tid: nat, iqn: string)
    requires IsToken(iqn)
    ensures MatchTarget(FormatTarget(tid, iqn)) == Some((tid, iqn))
  {
    var digits := NatToDigits(tid);
    var rest := digits + ": " + iqn;
    assert FormatTarget(tid, iqn) == ("Target " + rest) + "\n";
    BodyOfLine("Target " + rest);
    StripPrefixConcat("Target ", rest);
    assert rest == digits + (": " + iqn);
    SpanOfConcat(digits, ": " + iqn, IsDigit);
    assert rest[|digits|..] == ": " + iqn;
    assert rest[..|digits|] == digits;
    StripPrefixConcat(": ", iqn);
  }

  lemma MatchFormatLun(indent: string, lun: nat)
    requires AllSpace(indent)
    ensures MatchLun(FormatLun(indent, lun)) == Some(lun)
  {
    var digits := NatToDigits(lun);
    assert FormatLun(indent, lun) == indent + ("LUN: " + digits) + "\n";
    LeadOfFormatted(indent, "LUN: " + digits);
    StripPrefixConcat("LUN: ", digits);
  }

  lemma SplitScsiId(vendor: string, gap: string, scsiId: string)
    requires IsToken(vendor) && |gap| > 0 && AllSpace(gap) && IsToken(scsiId)
    ensures var rest := vendor + gap + scsiId;
      Span(rest, NotSpace) == |vendor| && rest[..|vendor|] == vendor && rest[|vendor|..] == gap + scsiId
      && Span(gap + scsiId, IsSpace) == |gap| && (gap + scsiId)[|gap|..] == scsiId
  {
    var rest := vendor + gap + scsiId;
    assert rest == vendor + (gap + scsiId);
    SpanOfConcat(vendor, gap + scsiId, NotSpace);
    SpanOfConcat(gap, scsiId, IsSpace);
  }

  lemma MatchFormatScsiId(indent: string, vendor: string, gap: string, scsiId: string)
    requires AllSpace(indent) && IsToken(vendor) && |gap| > 0 && AllSpace(gap) && IsToken(scsiId)
    ensures MatchScsiId(FormatScsiId(indent, vendor, gap, scsiId)) == Some((vendor, scsiId))
  {
    var rest := vendor + gap + scsiId;
    assert FormatScsiId(indent, vendor, gap, scsiId) == indent + ("SCSI ID: " + rest) + "\n";
    assert rest[|rest| - 1] == scsiId[|scsiId| - 1];
    LeadOfFormatted(indent, "SCSI ID: " + rest);
    StripPrefixConcat("SCSI ID: ", rest);
    SplitScsiId(vendor, gap, scsiId);
  }

  lemma MatchFormatScsiSn(indent: string, sn: string)
    requires AllSpace(indent) && IsToken(sn)
    ensures MatchScsiSn(FormatScsiSn(indent, sn)) == Some(sn)
  {
    assert FormatScsiSn(indent, sn) == indent + ("SCSI SN: " + sn) + "\n";
    LeadOfFormatted(indent, "SCSI SN: " + sn);
    StripPrefixConcat("SCSI SN: ", sn);
  }

  lemma MatchFormatBackingPath(indent: string, path: string)
    requires AllSpace(indent) && IsToken(path)
    ensures MatchBackingPath(FormatBackingPath(indent, path)) == Some(path)
  {
    assert FormatBackingPath(indent, path) == indent + ("Backing store path: " + path) + "\n";
    LeadOfFormatted(indent, "Backing store path: " + path);
    StripPrefixConcat("Backing store path: ", path);
  }

  lemma MatchFormatAclHeader(indent: string)
    requires AllSpace(indent)
    ensures MatchAclHeader(FormatAclHeader(indent))
  {
    assert FormatAclHeader(indent) == indent + "ACL information:" + "\n";
    LeadOfFormatted(indent, "ACL information:");
  }

  lemma MatchFormatEntry(indent: string, word: string)
    requires AllSpace(indent) && IsToken(word)
    ensures MatchToken(FormatEntry(indent, word)) == Some(word)
  {
    LeadOfFormatted(indent, word);
  }

  /** A line none of whose patterns match: `query_target` skips it outside ACL reading. */
  lemma UnrecognisedLine(indent: string, text: string)
    requires AllSpace(indent)
    requires text != [] && !IsSpace(text[0]) && text[|text| - 1] != '\n' && !IsToken(text)
    requires StripPrefix("Target ", text).None? && StripPrefix("LUN: ", text).None?
    requires StripPrefix("SCSI ID: ", text).None? && StripPrefix("SCSI SN: ", text).None?
    requires StripPrefix("Backing store path: ", text).None? && text != "ACL information:"
    ensures Classify(indent + text + "\n") == Unrecognised
  {
    LeadOfFormatted(indent, text);
    BodyOfLine(indent + text);
  }
}
