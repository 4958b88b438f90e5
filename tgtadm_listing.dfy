/**
 * The target listing as `tgtadm --op show --mode target` prints it, and the
 * round trip: `query_target` reads back exactly the targets, LUNs and ACL
 * entries a listing was printed from. Lines the parser has no pattern for
 * (system information, LUN type, backing store type, account information)
 * are part of the listing and are skipped.
 */
module TgtadmListing {
  import opened Wrappers
  import opened Text
  import opened TgtadmLines
  import opened Tgtadm

  datatype LunInfo = LunInfo(id: nat, vendor: string, scsiId: string, sn: string, path: string)

  datatype TargetInfo = TargetInfo(tid: nat, iqn: string, luns: seq<LunInfo>, acl: seq<string>)

  const Indent1 := "    "
  const Indent2 := "        "
  const Indent3 := "            "
  /** The spaces between the vendor and the identifier on a `SCSI ID:` line. */
  const VendorGap := "     "

  /** A line the parser has no pattern for. */
  function Line(indent: string, text: string): string {
    indent + text + "\n"
  }

  predicate PrintableLun(l: LunInfo) {
    IsToken(l.vendor) && IsToken(l.scsiId) && IsToken(l.sn) && IsToken(l.path)
  }

  /** Every printed field is one token, as the patterns' `(\S+)` groups require. */
  predicate Printable(t: TargetInfo) {
    IsToken(t.iqn) && (forall i :: 0 <= i < |t.luns| ==> PrintableLun(t.luns[i])) && AllTokens(t.acl)
  }

  function LunBlock(l: LunInfo): seq<string> {
    [FormatLun(Indent2, l.id)] + LunFields(l)
  }

  function LunFields(l: LunInfo): seq<string> {
    [Line(Indent3, "Type: disk")] + ([FormatScsiId(Indent3, l.vendor, VendorGap, l.scsiId)] +
      ([FormatScsiSn(Indent3, l.sn)] + ([Line(Indent3, "Backing store type: rdwr")] + [FormatBackingPath(Indent3, l.path)])))
  }

  function LunBlocks(ls: seq<LunInfo>): seq<string> {
    if ls == [] then [] else LunBlocks(ls[..|ls| - 1]) + LunBlock(ls[|ls| - 1])
  }

  function TargetHead(t: TargetInfo): seq<string> {
    [FormatTarget(t.tid, t.iqn)] + ([Line(Indent1, "System information:")] +
      ([Line(Indent2, "Driver: iscsi")] + [Line(Indent1, "LUN information:")]))
  }

  function TargetTail(t: TargetInfo): seq<string> {
    [Line(Indent1, "Account information:")] + ([FormatAclHeader(Indent1)] + EntryLines(Indent2, t.acl))
  }

  function TargetBlock(t: TargetInfo): seq<string> {
    TargetHead(t) + LunBlocks(t.luns) + TargetTail(t)
  }

  function Listing(ts: seq<TargetInfo>): seq<string> {
    if ts == [] then [] else Listing(ts[..|ts| - 1]) + TargetBlock(ts[|ts| - 1])
  }

  /** The record `query_target` should build for a LUN. */
  function LunRecOf(l: LunInfo): LunRec {
    LunRec(Some(l.id), Some(l.vendor), Some(l.scsiId), Some(l.sn), Some(l.path))
  }

  function LunRecs(ls: seq<LunInfo>): seq<LunRec> {
    if ls == [] then [] else LunRecs(ls[..|ls| - 1]) + [LunRecOf(ls[|ls| - 1])]
  }

  /** The record `query_target` should build for a target. */
  function RecordOf(t: TargetInfo): TargetRec {
    TargetRec(Some(t.tid), Some(t.iqn), Some(LunRecs(t.luns)), Some(t.acl))
  }

  function Records(ts: seq<TargetInfo>): seq<TargetRec> {
    if ts == [] then [] else Records(ts[..|ts| - 1]) + [RecordOf(ts[|ts| - 1])]
  }

  lemma RunConsOk(st: ParserState, line: string, rest: seq<string>, next: ParserState)
    requires Step(st, line) == Ok(next)
    ensures RunFrom(st, [line] + rest) == RunFrom(next, rest)
  {
    RunCons(st, line, rest);
  }

  lemma TypeLine()
    ensures Classify(Line(Indent3, "Type: disk")) == Unrecognised
  {
    assert "Type: disk"[5] == ' ';
    UnrecognisedLine(Indent3, "Type: disk");
  }

  lemma StoreTypeLine()
    ensures Classify(Line(Indent3, "Backing store type: rdwr")) == Unrecognised
  {
    assert "Backing store type: rdwr"[7] == ' ';
    assert "Backing store type: rdwr"[..20][14] != "Backing store path: "[14];
    UnrecognisedLine(Indent3, "Backing store type: rdwr");
  }

  lemma SystemLine()
    ensures Classify(Line(Indent1, "System information:")) == Unrecognised
  {
    assert "System information:"[6] == ' ';
    UnrecognisedLine(Indent1, "System information:");
  }

  lemma DriverLine()
    ensures Classify(Line(Indent2, "Driver: iscsi")) == Unrecognised
  {
    assert "Driver: iscsi"[7] == ' ';
    UnrecognisedLine(Indent2, "Driver: iscsi");
  }

  lemma LunInfoLine()
    ensures Classify(Line(Indent1, "LUN information:")) == Unrecognised
  {
    assert "LUN information:"[3] == ' ';
    UnrecognisedLine(Indent1, "LUN information:");
  }

  lemma AccountInfoLine()
    ensures Classify(Line(Indent1, "Account information:")) == Unrecognised
  {
    assert "Account information:"[7] == ' ';
    UnrecognisedLine(Indent1, "Account information:");
  }

  lemma SkipRun(st: ParserState, line: string, rest: seq<string>)
    requires !st.readingAcl && Classify(line) == Unrecognised
    ensures RunFrom(st, [line] + rest) == RunFrom(st, rest)
  {
    SkipStep(st, line);
    RunConsOk(st, line, rest, st);
  }

  lemma ScsiIdRun(st: ParserState, l: LunInfo, rest: seq<string>)
    requires !st.readingAcl && PrintableLun(l)
    ensures RunFrom(st, [FormatScsiId(Indent3, l.vendor, VendorGap, l.scsiId)] + rest) ==
      RunFrom(st.(lun := st.lun.(scsiVendor := Some(l.vendor), scsiId := Some(l.scsiId))), rest)
  {
    ScsiIdStep(st, Indent3, l.vendor, VendorGap, l.scsiId);
    RunConsOk(st, FormatScsiId(Indent3, l.vendor, VendorGap, l.scsiId), rest,
      st.(lun := st.lun.(scsiVendor := Some(l.vendor), scsiId := Some(l.scsiId))));
  }

  lemma ScsiSnRun(st: ParserState, l: LunInfo, rest: seq<string>)
    requires !st.readingAcl && PrintableLun(l)
    ensures RunFrom(st, [FormatScsiSn(Indent3, l.sn)] + rest) == RunFrom(st.(lun := st.lun.(scsiSn := Some(l.sn))), rest)
  {
    ScsiSnStep(st, Indent3, l.sn);
    RunConsOk(st, FormatScsiSn(Indent3, l.sn), rest, st.(lun := st.lun.(scsiSn := Some(l.sn))));
  }

  lemma BackingPathRun(st: ParserState, l: LunInfo)
    requires !st.readingAcl && st.current.luns.Some? && PrintableLun(l)
    ensures RunFrom(st, [FormatBackingPath(Indent3, l.path)]) ==
      Ok(st.(current := AppendLun(st.current, st.lun.(path := Some(l.path))), lun := NoLun))
  {
    BackingPathStep(st, Indent3, l.path);
    RunSnoc(st, [], FormatBackingPath(Indent3, l.path));
    assert [] + [FormatBackingPath(Indent3, l.path)] == [FormatBackingPath(Indent3, l.path)];
  }

  /** The lines after a `LUN:` line fill the pending LUN; its backing path appends it. */
  lemma LunFieldsRun(s1: ParserState, l: LunInfo)
    requires !s1.readingAcl && s1.current.luns.Some? && s1.lun == NoLun.(id := Some(l.id)) && PrintableLun(l)
    ensures RunFrom(s1, LunFields(l)) == Ok(s1.(current := AppendLun(s1.current, LunRecOf(l)), lun := NoLun))
  {
    var s3 := s1.(lun := s1.lun.(scsiVendor := Some(l.vendor), scsiId := Some(l.scsiId)));
    var s4 := s3.(lun := s3.lun.(scsiSn := Some(l.sn)));
    var rest4 := [Line(Indent3, "Backing store type: rdwr")] + [FormatBackingPath(Indent3, l.path)];
    var rest3 := [FormatScsiSn(Indent3, l.sn)] + rest4;
    TypeLine();
    SkipRun(s1, Line(Indent3, "Type: disk"), [FormatScsiId(Indent3, l.vendor, VendorGap, l.scsiId)] + rest3);
    ScsiIdRun(s1, l, rest3);
    ScsiSnRun(s3, l, rest4);
    StoreTypeLine();
    SkipRun(s4, Line(Indent3, "Backing store type: rdwr"), [FormatBackingPath(Indent3, l.path)]);
    BackingPathRun(s4, l);
  }

  lemma LunBlockRun(st: ParserState, l: LunInfo)
    requires !st.readingAcl && st.current.luns.Some? && st.lun == NoLun && PrintableLun(l)
    ensures RunFrom(st, LunBlock(l)) == Ok(st.(current := AppendLun(st.current, LunRecOf(l)), lun := NoLun))
  {
    var s1 := st.(lun := NoLun.(id := Some(l.id)));
    LunStep(st, Indent2, l.id);
    RunConsOk(st, FormatLun(Indent2, l.id), LunFields(l), s1);
    LunFieldsRun(s1, l);
  }

  predicate AllPrintableLuns(ls: seq<LunInfo>) {
    forall i :: 0 <= i < |ls| ==> PrintableLun(ls[i])
  }

  lemma {:induction false} LunBlocksRun(st: ParserState, ls: seq<LunInfo>)
    requires !st.readingAcl && st.current.luns.Some? && st.lun == NoLun && AllPrintableLuns(ls)
    ensures RunFrom(st, LunBlocks(ls)) == Ok(st.(current := st.current.(luns := Some(st.current.luns.value + LunRecs(ls)))))
    decreases |ls|
  {
    if ls == [] {
      assert st.current.luns.value + LunRecs(ls) == st.current.luns.value;
    } else {
      var init, last := ls[..|ls| - 1], ls[|ls| - 1];
      assert AllPrintableLuns(init) by {
        forall i | 0 <= i < |init| ensures PrintableLun(init[i]) {
          assert init[i] == ls[i];
        }
      }
      LunBlocksRun(st, init);
      var mid := st.(current := st.current.(luns := Some(st.current.luns.value + LunRecs(init))));
      RunAppend(st, LunBlocks(init), LunBlock(last));
      LunBlockRun(mid, last);
      assert st.current.luns.value + LunRecs(init) + [LunRecOf(last)] == st.current.luns.value + LunRecs(ls);
    }
  }

  /** The opening lines of a target: its `Target` line and three lines without a pattern. */
  lemma TargetHeadRun(st: ParserState, t: TargetInfo)
    requires IsToken(t.iqn)
    ensures RunFrom(st, TargetHead(t)) ==
      Ok(ParserState(Emitted(st), TargetRec(Some(t.tid), Some(t.iqn), Some([]), None), st.lun, false))
  {
    var s1 := ParserState(Emitted(st), TargetRec(Some(t.tid), Some(t.iqn), Some([]), None), st.lun, false);
    var last := Line(Indent1, "LUN information:");
    TargetLineStep(st, t.tid, t.iqn);
    RunConsOk(st, FormatTarget(t.tid, t.iqn), [Line(Indent1, "System information:")] + ([Line(Indent2, "Driver: iscsi")] + [last]), s1);
    SystemLine();
    SkipRun(s1, Line(Indent1, "System information:"), [Line(Indent2, "Driver: iscsi")] + [last]);
    DriverLine();
    SkipRun(s1, Line(Indent2, "Driver: iscsi"), [last]);
    LunInfoLine();
    SkipRun(s1, last, []);
    assert [last] + [] == [last];
  }

  lemma AclRun(st: ParserState, t: TargetInfo)
    requires !st.readingAcl && AllTokens(t.acl)
    ensures RunFrom(st, [FormatAclHeader(Indent1)] + EntryLines(Indent2, t.acl)) ==
      Ok(st.(current := st.current.(acl := Some(t.acl)), readingAcl := true))
  {
    AclSection(st, Indent1, Indent2, t.acl);
  }

  /** The closing lines of a target: account information, then its ACL. */
  lemma TargetTailRun(st: ParserState, t: TargetInfo)
    requires !st.readingAcl && AllTokens(t.acl)
    ensures RunFrom(st, TargetTail(t)) == Ok(st.(current := st.current.(acl := Some(t.acl)), readingAcl := true))
  {
    AccountInfoLine();
    SkipRun(st, Line(Indent1, "Account information:"), [FormatAclHeader(Indent1)] + EntryLines(Indent2, t.acl));
    AclRun(st, t);
  }

  lemma TargetBlockRun(st: ParserState, t: TargetInfo)
    requires st.lun == NoLun && Printable(t)
    ensures RunFrom(st, TargetBlock(t)) == Ok(ParserState(Emitted(st), RecordOf(t), NoLun, true))
  {
    var s1 := ParserState(Emitted(st), TargetRec(Some(t.tid), Some(t.iqn), Some([]), None), NoLun, false);
    var s2 := s1.(current := s1.current.(luns := Some([] + LunRecs(t.luns))));
    RunAppend(st, TargetHead(t) + LunBlocks(t.luns), TargetTail(t));
    RunAppend(st, TargetHead(t), LunBlocks(t.luns));
    TargetHeadRun(st, t);
    LunBlocksRun(s1, t.luns);
    TargetTailRun(s2, t);
    assert [] + LunRecs(t.luns) == LunRecs(t.luns);
  }

  predicate AllPrintable(ts: seq<TargetInfo>) {
    forall i :: 0 <= i < |ts| ==> Printable(ts[i])
  }

  lemma {:induction false} ListingRun(ts: seq<TargetInfo>)
    requires AllPrintable(ts)
    ensures Run(Listing(ts)).Ok? && Run(Listing(ts)).value.lun == NoLun
    ensures Emitted(Run(Listing(ts)).value) == Records(ts)
    decreases |ts|
  {
    if ts != [] {
      var init, last := ts[..|ts| - 1], ts[|ts| - 1];
      assert AllPrintable(init) by {
        forall i | 0 <= i < |init| ensures Printable(init[i]) {
          assert init[i] == ts[i];
        }
      }
      ListingRun(init);
      RunAppend(Start, Listing(init), TargetBlock(last));
      TargetBlockRun(Run(Listing(init)).value, last);
    }
  }

  /**
   * `query_target` reads a listing back into exactly the records it was
   * printed from: one per target in order, each with its LUNs in order and
   * its ACL entries in order.
   */
  lemma ListingRoundTrip(ts: seq<TargetInfo>)
    requires AllPrintable(ts)
    ensures ParseTargets(Listing(ts)) == Ok(Records(ts))
  {
    ListingRun(ts);
  }
}
