/**
 * `query_target` (tgtadm.py:39-97): the target listing of
 * `tgtadm --op show --mode target`, read line by line into target records.
 *
 * The Python records are dictionaries whose keys appear one by one, and code
 * that reads a key not yet set raises `KeyError`; so every field here is an
 * `Option`, `None` standing for an absent key. `Step` is the parser as a
 * transition function on `ParserState` (the current target, the pending LUN,
 * the ACL-reading flag and the records emitted so far), `ParseTargets` the
 * whole listing; `QueryTarget` is the loop of the source, proved equal to it.
 */
module Tgtadm {
  import opened Wrappers
  import opened Text
  import opened TgtadmLines
  import opened Folds

  /** The `lun` dictionary: `id`, `scsi_vendor`, `scsi_id`, `scsi_sn`, `path`. */
  datatype LunRec = LunRec(
    id: Option<nat>,
    scsiVendor: Option<string>,
    scsiId: Option<string>,
    scsiSn: Option<string>,
    path: Option<string>)

  /** `lun = {}` */
  const NoLun := LunRec(None, None, None, None, None)

  /** The `current` dictionary: `tid`, `iqn`, `luns`, `acl`. */
  datatype TargetRec = TargetRec(
    tid: Option<nat>,
    iqn: Option<string>,
    luns: Option<seq<LunRec>>,
    acl: Option<seq<string>>)

  /** `current = {}` */
  const NoTarget := TargetRec(None, None, None, None)

  /** The exceptions `query_target` can raise. */
  datatype ParseError =
    | AclParseFailure(line: string)  // `raise "Failed to parse ACL %s" % line` (tgtadm.py:66)
    | KeyError(key: string)          // a read of a dictionary key that was never set

  datatype ParserState = ParserState(
    results: seq<TargetRec>,
    current: TargetRec,
    lun: LunRec,
    readingAcl: bool)

  const Start := ParserState([], NoTarget, NoLun, false)

  /** The records listed if the current target is flushed now (tgtadm.py:53-55 and 94-95). */
  function Emitted(st: ParserState): seq<TargetRec> {
    if st.current != NoTarget then st.results + [st.current] else st.results
  }

  /** `current["luns"].append(lun)` */
  function AppendLun(t: TargetRec, l: LunRec): TargetRec
    requires t.luns.Some?
  {
    t.(luns := Some(t.luns.value + [l]))
  }

  /** One iteration of the loop of `query_target` (tgtadm.py:51-92). */
  function Step(st: ParserState, line: string): Result<ParserState, ParseError> {
    var kind := Classify(line);
    if kind.TargetHeader? then
      Ok(ParserState(Emitted(st), TargetRec(Some(kind.tid), Some(kind.iqn), Some([]), None), st.lun, false))
    else if st.readingAcl then
      if !kind.BareToken? then Err(AclParseFailure(line))
      else if st.current.acl.None? then Err(KeyError("acl"))
      else Ok(st.(current := st.current.(acl := Some(st.current.acl.value + [kind.word]))))
    else
      match kind
      case LunHeader(n) =>
        if st.lun == NoLun then Ok(st.(lun := NoLun.(id := Some(n))))
        else if st.current.luns.None? then Err(KeyError("luns"))
        else Ok(st.(current := AppendLun(st.current, st.lun), lun := NoLun.(id := Some(n))))
      case ScsiIdField(vendor, scsiId) =>
        Ok(st.(lun := st.lun.(scsiVendor := Some(vendor), scsiId := Some(scsiId))))
      case ScsiSnField(sn) =>
        Ok(st.(lun := st.lun.(scsiSn := Some(sn))))
      case BackingPathField(path) =>
        if st.current.luns.None? then Err(KeyError("luns"))
        else Ok(st.(current := AppendLun(st.current, st.lun.(path := Some(path))), lun := NoLun))
      case AclHeader =>
        Ok(st.(current := st.current.(acl := Some([])), readingAcl := true))
      case _ => Ok(st)
  }

  /** The loop run over `lines` from `st`; the first exception ends it. */
  function RunFrom(st: ParserState, lines: seq<string>): Result<ParserState, ParseError> {
    Fold(Step, st, lines)
  }

  function Run(lines: seq<string>): Result<ParserState, ParseError> {
    RunFrom(Start, lines)
  }

  /** What `query_target` returns for the listing `lines`, or the exception it raises. */
  function ParseTargets(lines: seq<string>): Result<seq<TargetRec>, ParseError> {
    var run := Run(lines);
    if run.Err? then Err(run.error) else Ok(Emitted(run.value))
  }

  lemma RunSnoc(st: ParserState, lines: seq<string>, line: string)
    ensures RunFrom(st, lines + [line]) ==
      if RunFrom(st, lines).Err? then RunFrom(st, lines) else Step(RunFrom(st, lines).value, line)
  {
    FoldSnoc(Step, st, lines, line);
  }

  lemma RunAppend(st: ParserState, a: seq<string>, b: seq<string>)
    ensures RunFrom(st, a + b) ==
      if RunFrom(st, a).Err? then RunFrom(st, a) else RunFrom(RunFrom(st, a).value, b)
  {
    FoldAppend(Step, st, a, b);
  }

  lemma RunCons(st: ParserState, line: string, rest: seq<string>)
    ensures RunFrom(st, [line] + rest) ==
      if Step(st, line).Err? then Err(Step(st, line).error) else RunFrom(Step(st, line).value, rest)
  {
    FoldCons(Step, st, line, rest);
  }

  lemma RunTwo(st: ParserState, l1: string, l2: string, s1: ParserState)
    requires Step(st, l1) == Ok(s1)
    ensures RunFrom(st, [l1, l2]) == Step(s1, l2)
  {
    RunCons(st, l1, [l2]);
    RunCons(s1, l2, []);
    assert [l1] + [l2] == [l1, l2];
    assert [l2] + [] == [l2];
  }

  lemma RunThree(st: ParserState, l1: string, l2: string, l3: string, s1: ParserState, s2: ParserState)
    requires Step(st, l1) == Ok(s1) && Step(s1, l2) == Ok(s2)
    ensures RunFrom(st, [l1, l2, l3]) == Step(s2, l3)
  {
    RunCons(st, l1, [l2, l3]);
    RunTwo(s1, l2, l3, s2);
    assert [l1] + [l2, l3] == [l1, l2, l3];
  }

  /** Once an exception is raised the rest of the listing is never read. */
  lemma ErrorIsFinal(lines: seq<string>, k: nat)
    requires k <= |lines| && Run(lines[..k]).Err?
    ensures ParseTargets(lines) == Err(Run(lines[..k]).error)
  {
    FoldErrorIsFinal(Step, Start, lines, k);
  }

  /** `query_target` as written: the source's sequence of tests on each line, over local state. */
  method QueryTarget(lines: seq<string>) returns (r: Result<seq<TargetRec>, ParseError>)
    ensures r == ParseTargets(lines)
  {
    var results: seq<TargetRec> := [];
    var current := NoTarget;
    var lun := NoLun;
    var readingAcl := false;
    var i := 0;
    while i < |lines|
      invariant 0 <= i <= |lines|
      invariant Run(lines[..i]) == Ok(ParserState(results, current, lun, readingAcl))
    {
      var line := lines[i];
      FoldNext(Step, Start, lines, i);
      PatternsExclusive(line);

      var target := MatchTarget(line);
      if target.Some? {
        if current != NoTarget {
          results := results + [current];
          current := NoTarget;
        }
        current := current.(tid := Some(target.value.0), iqn := Some(target.value.1), luns := Some([]));
        readingAcl := false;
      }

      if readingAcl {
        var entry := MatchToken(line);
        if entry.Some? {
          if current.acl.None? {
            r := Err(KeyError("acl"));
            ErrorIsFinal(lines, i + 1);
            return;
          }
          current := current.(acl := Some(current.acl.value + [entry.value]));
        } else {
          r := Err(AclParseFailure(line));
          ErrorIsFinal(lines, i + 1);
          return;
        }
        i := i + 1;
        continue;
      }

      var lunId := MatchLun(line);
      if lunId.Some? {
        if lun != NoLun {
          if current.luns.None? {
            r := Err(KeyError("luns"));
            ErrorIsFinal(lines, i + 1);
            return;
          }
          current := current.(luns := Some(current.luns.value + [lun]));
          lun := NoLun;
        }
        lun := lun.(id := Some(lunId.value));
      }
      var scsiId := MatchScsiId(line);
      if scsiId.Some? {
        lun := lun.(scsiVendor := Some(scsiId.value.0), scsiId := Some(scsiId.value.1));
      }
      var scsiSn := MatchScsiSn(line);
      if scsiSn.Some? {
        lun := lun.(scsiSn := Some(scsiSn.value));
      }
      var path := MatchBackingPath(line);
      if path.Some? {
        lun := lun.(path := Some(path.value));
        if lun != NoLun {
          if current.luns.None? {
            r := Err(KeyError("luns"));
            ErrorIsFinal(lines, i + 1);
            return;
          }
          current := current.(luns := Some(current.luns.value + [lun]));
          lun := NoLun;
        }
      }
      if MatchAclHeader(line) {
        readingAcl := true;
        current := current.(acl := Some([]));
      }
      i := i + 1;
    }
    assert lines[..i] == lines;
    if current != NoTarget {
      results := results + [current];
    }
    r := Ok(results);
  }

  // What the parser keeps true from one line to the next.

  /** A record opened by a `Target` line: `tid`, `iqn` and `luns` are set. */
  predicate Headed(t: TargetRec) {
    t.tid.Some? && t.iqn.Some? && t.luns.Some?
  }

  /** A record filled before any `Target` line: it can hold at most an `acl` key. */
  predicate AclOnly(t: TargetRec) {
    t.tid.None? && t.iqn.None? && t.luns.None?
  }

  /**
   * Every listed record is opened by a `Target` line, except that the first
   * may be acl-only; once a record is listed the current one is opened by a
   * `Target` line; in ACL reading `acl` is set.
   */
  predicate Good(st: ParserState) {
    && (forall i :: 0 <= i < |st.results| ==> Headed(st.results[i]) || (i == 0 && AclOnly(st.results[i])))
    && (st.results != [] ==> Headed(st.current))
    && (Headed(st.current) || AclOnly(st.current))
    && (st.readingAcl ==> st.current.acl.Some?)
  }

  /** The `(tid, iqn)` of each record that has both, in order. */
  function Headers(rs: seq<TargetRec>): seq<(nat, string)> {
    if rs == [] then []
    else
      var last := rs[|rs| - 1];
      Headers(rs[..|rs| - 1]) + (if last.tid.Some? && last.iqn.Some? then [(last.tid.value, last.iqn.value)] else [])
  }

  /** The `(tid, iqn)` of each `Target` line, in order. */
  function TargetLines(lines: seq<string>): seq<(nat, string)> {
    if lines == [] then []
    else
      var last := lines[|lines| - 1];
      TargetLines(lines[..|lines| - 1]) + (if MatchTarget(last).Some? then [MatchTarget(last).value] else [])
  }

  lemma HeadersSnoc(rs: seq<TargetRec>, r: TargetRec)
    ensures Headers(rs + [r]) == Headers(rs) + (if r.tid.Some? && r.iqn.Some? then [(r.tid.value, r.iqn.value)] else [])
  {
    assert (rs + [r])[..|rs|] == rs;
  }

  /** What a line other than a `Target` line may change: the pending LUN, `luns`, `acl` and the mode. */
  lemma OtherStep(st: ParserState, line: string)
    requires Step(st, line).Ok? && MatchTarget(line).None?
    ensures var next := Step(st, line).value;
      && next.results == st.results
      && next.current.tid == st.current.tid && next.current.iqn == st.current.iqn
      && (next.current.luns.Some? ==> st.current.luns.Some?)
      && (st.current.luns.Some? ==> next.current.luns.Some?)
      && (st.current.acl.Some? ==> next.current.acl.Some?)
      && (next.readingAcl ==> next.current.acl.Some? || st.readingAcl)
  {
    var kind := Classify(line);
    assert !kind.TargetHeader?;
    if st.readingAcl {
      assert kind.BareToken?;
    } else {
      match kind
      case LunHeader(n) =>
      case ScsiIdField(vendor, scsiId) =>
      case ScsiSnField(sn) =>
      case BackingPathField(path) =>
      case AclHeader =>
      case BareToken(word) =>
      case Unrecognised =>
    }
  }

  lemma SameHeaders(st: ParserState, next: ParserState)
    requires next.results == st.results
    requires next.current.tid == st.current.tid && next.current.iqn == st.current.iqn
    requires st.current != NoTarget ==> next.current != NoTarget
    requires next.current != NoTarget && st.current == NoTarget ==> next.current.tid.None?
    ensures Headers(Emitted(next)) == Headers(Emitted(st))
  {
    if st.current != NoTarget {
      HeadersSnoc(st.results, st.current);
      HeadersSnoc(st.results, next.current);
    } else if next.current != NoTarget {
      HeadersSnoc(st.results, next.current);
    }
  }

  /** A `Target` line lists the current record and opens a new one, whatever the mode. */
  lemma TargetStep(st: ParserState, line: string)
    requires MatchTarget(line).Some?
    ensures Step(st, line) ==
      Ok(ParserState(Emitted(st), TargetRec(Some(MatchTarget(line).value.0), Some(MatchTarget(line).value.1), Some([]), None), st.lun, false))
  {
  }

  lemma TargetStepGood(st: ParserState, next: ParserState, tid: nat, iqn: string)
    requires Good(st)
    requires next == ParserState(Emitted(st), TargetRec(Some(tid), Some(iqn), Some([]), None), st.lun, false)
    ensures Good(next) && Headed(next.current)
    ensures Headers(Emitted(next)) == Headers(Emitted(st)) + [(tid, iqn)]
  {
    HeadersSnoc(Emitted(st), next.current);
    if st.current != NoTarget {
      HeadersSnoc(st.results, st.current);
    }
  }

  lemma OtherStepGood(st: ParserState, next: ParserState)
    requires Good(st)
    requires next.results == st.results
    requires next.current.tid == st.current.tid && next.current.iqn == st.current.iqn
    requires next.current.luns.Some? ==> st.current.luns.Some?
    requires st.current.luns.Some? ==> next.current.luns.Some?
    requires st.current.acl.Some? ==> next.current.acl.Some?
    requires next.readingAcl ==> next.current.acl.Some? || st.readingAcl
    ensures Good(next)
    ensures Headed(st.current) ==> Headed(next.current)
    ensures Headers(Emitted(next)) == Headers(Emitted(st))
  {
    if st.current != NoTarget {
      assert next.current != NoTarget by {
        if st.current.tid.None? {
          assert st.current.acl.Some?;
        }
      }
    }
    SameHeaders(st, next);
  }

  lemma StepGood(st: ParserState, line: string)
    requires Good(st) && Step(st, line).Ok?
    ensures Good(Step(st, line).value)
    ensures Headed(st.current) ==> Headed(Step(st, line).value.current)
    ensures MatchTarget(line).Some? ==> Headed(Step(st, line).value.current)
    ensures Headers(Emitted(Step(st, line).value)) ==
      Headers(Emitted(st)) + (if MatchTarget(line).Some? then [MatchTarget(line).value] else [])
  {
    var next := Step(st, line).value;
    if MatchTarget(line).Some? {
      TargetStep(st, line);
      TargetStepGood(st, next, MatchTarget(line).value.0, MatchTarget(line).value.1);
    } else {
      OtherStep(st, line);
      OtherStepGood(st, next);
    }
  }

  /** No exception but the ACL parse failure once a record is opened by a `Target` line. */
  lemma StepErrors(st: ParserState, line: string)
    requires Good(st) && Step(st, line).Err?
    ensures Step(st, line).error != KeyError("acl")
    ensures Headed(st.current) ==> Step(st, line).error == AclParseFailure(line)
  {
  }

  /** The line's `(tid, iqn)` if it is a `Target` line. */
  function TargetOf(line: string): seq<(nat, string)> {
    if MatchTarget(line).Some? then [MatchTarget(line).value] else []
  }

  lemma TargetLinesSnoc(lines: seq<string>, line: string)
    ensures TargetLines(lines + [line]) == TargetLines(lines) + TargetOf(line)
  {
    assert (lines + [line])[..|lines|] == lines;
  }

  /**
   * What a run from `st0` keeps after reading `pre` and reaching `s`: the
   * state is good, its headers are those of `st0` followed by the `Target`
   * lines read, and once a record is opened by a `Target` line it stays so.
   */
  predicate RunInv(st0: ParserState, pre: seq<string>, s: ParserState) {
    && Good(s)
    && Headers(Emitted(s)) == Headers(Emitted(st0)) + TargetLines(pre)
    && (Headed(st0.current) || TargetLines(pre) != [] ==> Headed(s.current))
  }

  /** The errors a run from `st0` may end in. */
  predicate RunFailure(st0: ParserState, e: ParseError) {
    e != KeyError("acl") && (Headed(st0.current) ==> e.AclParseFailure?)
  }

  lemma InvAdvance(st0: ParserState, pre: seq<string>, s: ParserState, line: string, next: ParserState)
    requires RunInv(st0, pre, s) && Good(next)
    requires Headers(Emitted(next)) == Headers(Emitted(s)) + TargetOf(line)
    requires Headed(s.current) ==> Headed(next.current)
    requires MatchTarget(line).Some? ==> Headed(next.current)
    ensures RunInv(st0, pre + [line], next)
  {
    TargetLinesSnoc(pre, line);
  }

  lemma InvStep(st0: ParserState, pre: seq<string>, s: ParserState, line: string)
    requires RunInv(st0, pre, s)
    ensures Step(s, line).Ok? ==> RunInv(st0, pre + [line], Step(s, line).value)
    ensures Step(s, line).Err? ==> RunFailure(st0, Step(s, line).error)
  {
    if Step(s, line).Ok? {
      StepGood(s, line);
      InvAdvance(st0, pre, s, line, Step(s, line).value);
    } else {
      StepErrors(s, line);
    }
  }

  /**
   * The whole run from a good state: the states stay good, the `Target` lines
   * are the records' headers in order, and `KeyError('acl')` never arises.
   */
  lemma RunFromGood(st: ParserState, lines: seq<string>)
    requires Good(st)
    ensures RunFrom(st, lines).Ok? ==> Good(RunFrom(st, lines).value)
    ensures RunFrom(st, lines).Ok? ==> Headers(Emitted(RunFrom(st, lines).value)) == Headers(Emitted(st)) + TargetLines(lines)
    ensures RunFrom(st, lines).Ok? && (Headed(st.current) || TargetLines(lines) != []) ==> Headed(RunFrom(st, lines).value.current)
    ensures RunFrom(st, lines).Err? ==> RunFrom(st, lines).error != KeyError("acl")
    ensures RunFrom(st, lines).Err? && Headed(st.current) ==> RunFrom(st, lines).error.AclParseFailure?
  {
    forall pre, s, line | RunInv(st, pre, s)
      ensures Step(s, line).Ok? ==> RunInv(st, pre + [line], Step(s, line).value)
      ensures Step(s, line).Err? ==> RunFailure(st, Step(s, line).error)
    {
      InvStep(st, pre, s, line);
    }
    assert Headers(Emitted(st)) + [] == Headers(Emitted(st));
    FoldInvariant(Step, st, lines, (pre, s) => RunInv(st, pre, s), e => RunFailure(st, e));
  }

  /**
   * `query_target` lists one record per `Target` line, in input order, with
   * that line's `tid` and `iqn`; only a first record, filled by ACL lines
   * before any `Target` line, can lack them, and then it has no `luns` either.
   */
  lemma ParseTargetsShape(lines: seq<string>, rs: seq<TargetRec>)
    requires ParseTargets(lines) == Ok(rs)
    ensures Headers(rs) == TargetLines(lines)
    ensures forall i :: 0 < i < |rs| ==> Headed(rs[i])
    ensures |rs| > 0 ==> Headed(rs[0]) || AclOnly(rs[0])
  {
    RunFromGood(Start, lines);
    var st := Run(lines).value;
    if st.current != NoTarget {
      assert rs == st.results + [st.current];
    }
  }

  /** `current["acl"]` is always set when an ACL entry is appended to it. */
  lemma NoAclKeyError(lines: seq<string>)
    ensures ParseTargets(lines) != Err(KeyError("acl"))
  {
    RunFromGood(Start, lines);
  }

  /**
   * A listing that starts with a `Target` line raises no `KeyError`: `luns`
   * is missing only while no `Target` line has been read.
   */
  lemma KeyErrorOnlyBeforeTarget(lines: seq<string>)
    requires |lines| > 0 && MatchTarget(lines[0]).Some?
    ensures ParseTargets(lines).Err? ==> ParseTargets(lines).error.AclParseFailure?
  {
    assert lines == [lines[0]] + lines[1..];
    RunCons(Start, lines[0], lines[1..]);
    StepGood(Start, lines[0]);
    RunFromGood(Step(Start, lines[0]).value, lines[1..]);
  }

  // The flush points, on the lines as tgtadm prints them.

  predicate AllTokens(words: seq<string>) {
    forall i :: 0 <= i < |words| ==> IsToken(words[i])
  }

  /** One ACL entry line in ACL reading. */
  lemma EntryStep(st: ParserState, indent: string, word: string)
    requires st.readingAcl && st.current.acl.Some? && AllSpace(indent) && IsToken(word)
    ensures Step(st, FormatEntry(indent, word)) == Ok(WithAcl(st, [word]))
  {
    MatchFormatEntry(indent, word);
  }

  /** One `LUN:` line outside ACL reading. */
  lemma LunStep(st: ParserState, indent: string, n: nat)
    requires !st.readingAcl && AllSpace(indent)
    ensures Step(st, FormatLun(indent, n)) ==
      if st.lun == NoLun then Ok(st.(lun := NoLun.(id := Some(n))))
      else if st.current.luns.None? then Err(KeyError("luns"))
      else Ok(st.(current := AppendLun(st.current, st.lun), lun := NoLun.(id := Some(n))))
  {
    MatchFormatLun(indent, n);
  }

  /** One `Backing store path:` line outside ACL reading. */
  lemma BackingPathStep(st: ParserState, indent: string, path: string)
    requires !st.readingAcl && AllSpace(indent) && IsToken(path)
    ensures Step(st, FormatBackingPath(indent, path)) ==
      if st.current.luns.None? then Err(KeyError("luns"))
      else Ok(st.(current := AppendLun(st.current, st.lun.(path := Some(path))), lun := NoLun))
  {
    MatchFormatBackingPath(indent, path);
  }

  /** One `SCSI ID:` line outside ACL reading fills the pending LUN's vendor and identifier. */
  lemma ScsiIdStep(st: ParserState, indent: string, vendor: string, gap: string, scsiId: string)
    requires !st.readingAcl && AllSpace(indent) && IsToken(vendor) && |gap| > 0 && AllSpace(gap) && IsToken(scsiId)
    ensures Step(st, FormatScsiId(indent, vendor, gap, scsiId)) ==
      Ok(st.(lun := st.lun.(scsiVendor := Some(vendor), scsiId := Some(scsiId))))
  {
    MatchFormatScsiId(indent, vendor, gap, scsiId);
  }

  /** One `SCSI SN:` line outside ACL reading fills the pending LUN's serial number. */
  lemma ScsiSnStep(st: ParserState, indent: string, sn: string)
    requires !st.readingAcl && AllSpace(indent) && IsToken(sn)
    ensures Step(st, FormatScsiSn(indent, sn)) == Ok(st.(lun := st.lun.(scsiSn := Some(sn))))
  {
    MatchFormatScsiSn(indent, sn);
  }

  /** A line no pattern matches changes nothing outside ACL reading. */
  lemma SkipStep(st: ParserState, line: string)
    requires !st.readingAcl && Classify(line) == Unrecognised
    ensures Step(st, line) == Ok(st)
  {
  }

  /** One `Target` line, in either mode. */
  lemma TargetLineStep(st: ParserState, tid: nat, iqn: string)
    requires IsToken(iqn)
    ensures Step(st, FormatTarget(tid, iqn)) ==
      Ok(ParserState(Emitted(st), TargetRec(Some(tid), Some(iqn), Some([]), None), st.lun, false))
  {
    MatchFormatTarget(tid, iqn);
  }

  /** In ACL reading each entry line appends its token to `acl`, in order. */
  lemma AclEntriesAppended(st: ParserState, indent: string, words: seq<string>)
    requires st.readingAcl && st.current.acl.Some?
    requires AllSpace(indent) && AllTokens(words)
    ensures RunFrom(st, EntryLines(indent, words)) == Ok(WithAcl(st, words))
  {
    var lines := EntryLines(indent, words);
    var states := seq(|words| + 1, i requires 0 <= i <= |words| => WithAcl(st, words[..i]));
    EntryLinesAt(indent, words);
    forall i | 0 <= i < |lines|
      ensures Step(states[i], lines[i]) == Ok(states[i + 1])
    {
      EntryStepAt(st, indent, words, i);
    }
    assert states[0] == st by {
      assert st.current.acl.value + words[..0] == st.current.acl.value;
    }
    FoldAlong(Step, lines, states);
    assert words[..|words|] == words;
  }

  /** `st` with `words` appended to its ACL. */
  function WithAcl(st: ParserState, words: seq<string>): ParserState
    requires st.current.acl.Some?
  {
    st.(current := st.current.(acl := Some(st.current.acl.value + words)))
  }

  /** The entry line of the `i`th word adds that word to the ACL. */
  lemma EntryStepAt(st: ParserState, indent: string, words: seq<string>, i: nat)
    requires st.readingAcl && st.current.acl.Some? && AllSpace(indent) && i < |words| && IsToken(words[i])
    ensures Step(WithAcl(st, words[..i]), FormatEntry(indent, words[i])) == Ok(WithAcl(st, words[..i + 1]))
  {
    EntryStep(WithAcl(st, words[..i]), indent, words[i]);
    WithAclSnoc(st, words, i);
  }

  lemma WithAclSnoc(st: ParserState, words: seq<string>, i: nat)
    requires st.current.acl.Some? && i < |words|
    ensures WithAcl(WithAcl(st, words[..i]), [words[i]]) == WithAcl(st, words[..i + 1])
  {
    assert words[..i + 1] == words[..i] + [words[i]];
    assert st.current.acl.value + words[..i] + [words[i]] == st.current.acl.value + words[..i + 1];
  }



  /**
   * `ACL information:` resets `acl` to `[]` and turns ACL reading on; the
   * entries after it are then exactly the ACL.
   */
  lemma AclSection(st: ParserState, indent: string, entryIndent: string, words: seq<string>)
    requires !st.readingAcl && AllSpace(indent) && AllSpace(entryIndent) && AllTokens(words)
    ensures RunFrom(st, [FormatAclHeader(indent)] + EntryLines(entryIndent, words)) ==
      Ok(st.(current := st.current.(acl := Some(words)), readingAcl := true))
  {
    MatchFormatAclHeader(indent);
    RunCons(st, FormatAclHeader(indent), EntryLines(entryIndent, words));
    var next := st.(current := st.current.(acl := Some([])), readingAcl := true);
    AclEntriesAppended(next, entryIndent, words);
    assert [] + words == words;
  }

  /** In ACL reading a line that is neither a `Target` line nor one bare token is fatal. */
  lemma AclRejects(st: ParserState, line: string)
    requires st.readingAcl && MatchTarget(line).None? && MatchToken(line).None?
    ensures Step(st, line) == Err(AclParseFailure(line))
  {
  }

  /**
   * A `LUN:` line followed by its `Backing store path:` line appends the LUN
   * once; the pending LUN is then empty, so the next `LUN:` line starts a new
   * one without appending again.
   */
  lemma LunAppendedOnce(st: ParserState, indent: string, n: nat, pathIndent: string, path: string, m: nat)
    requires !st.readingAcl && st.current.luns.Some? && st.lun == NoLun
    requires AllSpace(indent) && AllSpace(pathIndent) && IsToken(path)
    ensures RunFrom(st, [FormatLun(indent, n), FormatBackingPath(pathIndent, path), FormatLun(indent, m)]) ==
      Ok(st.(current := AppendLun(st.current, NoLun.(id := Some(n), path := Some(path))), lun := NoLun.(id := Some(m))))
  {
    var l1, l2, l3 := FormatLun(indent, n), FormatBackingPath(pathIndent, path), FormatLun(indent, m);
    var s1 := st.(lun := NoLun.(id := Some(n)));
    var s2 := st.(current := AppendLun(st.current, NoLun.(id := Some(n), path := Some(path))), lun := NoLun);
    LunStep(st, indent, n);
    BackingPathStep(s1, pathIndent, path);
    LunStep(s2, indent, m);
    RunThree(st, l1, l2, l3, s1, s2);
  }

  /** A `LUN:` line flushes a pending LUN that never got a backing path. */
  lemma LunWithoutPathFlushed(st: ParserState, indent: string, m: nat)
    requires !st.readingAcl && st.current.luns.Some? && st.lun != NoLun && AllSpace(indent)
    ensures Step(st, FormatLun(indent, m)) ==
      Ok(st.(current := AppendLun(st.current, st.lun), lun := NoLun.(id := Some(m))))
  {
    LunStep(st, indent, m);
  }

  /** A LUN pending at the end of the listing is not in the result. */
  lemma PendingLunDropped(lines: seq<string>, indent: string, n: nat)
    requires Run(lines).Ok? && !Run(lines).value.readingAcl && Run(lines).value.lun == NoLun
    requires AllSpace(indent)
    ensures ParseTargets(lines + [FormatLun(indent, n)]) == ParseTargets(lines)
  {
    LunStep(Run(lines).value, indent, n);
    RunSnoc(Start, lines, FormatLun(indent, n));
  }

  /** A pending LUN survives a `Target` line and is appended to the new target by its backing path. */
  lemma PendingLunCrossesTarget(st: ParserState, tid: nat, iqn: string, indent: string, path: string)
    requires IsToken(iqn) && AllSpace(indent) && IsToken(path)
    ensures RunFrom(st, [FormatTarget(tid, iqn), FormatBackingPath(indent, path)]) ==
      Ok(ParserState(Emitted(st), TargetRec(Some(tid), Some(iqn), Some([st.lun.(path := Some(path))]), None), NoLun, false))
  {
    var l1, l2 := FormatTarget(tid, iqn), FormatBackingPath(indent, path);
    var s1 := ParserState(Emitted(st), TargetRec(Some(tid), Some(iqn), Some([]), None), st.lun, false);
    var lun := st.lun.(path := Some(path));
    TargetLineStep(st, tid, iqn);
    BackingPathStep(s1, indent, path);
    assert AppendLun(s1.current, lun) == TargetRec(Some(tid), Some(iqn), Some([lun]), None) by {
      assert [] + [lun] == [lun];
    }
    RunTwo(st, l1, l2, s1);
  }

  // `unique_tids` (tgtadm.py:99-100).

  /** `set(map(lambda x: x["tid"], luns))`: a record without `tid` raises `KeyError`. */
  function UniqueTids(targets: seq<TargetRec>): (r: Result<set<nat>, ParseError>)
    ensures r.Ok? <==> forall i :: 0 <= i < |targets| ==> targets[i].tid.Some?
    ensures r.Err? ==> r.error == KeyError("tid")
    ensures r.Ok? ==> forall n :: n in r.value <==> exists i :: 0 <= i < |targets| && targets[i].tid == Some(n)
    decreases |targets|
  {
    if targets == [] then Ok({})
    else
      var init := targets[..|targets| - 1];
      var last := targets[|targets| - 1];
      var rest := UniqueTids(init);
      if last.tid.None? then Err(KeyError("tid"))
      else if rest.Err? then rest
      else
        assert forall i :: 0 <= i < |init| ==> init[i] == targets[i];
        Ok(rest.value + {last.tid.value})
  }

  predicate AllHeaded(rs: seq<TargetRec>) {
    forall i :: 0 <= i < |rs| ==> Headed(rs[i])
  }

  lemma {:induction false} HeadersOfHeaded(rs: seq<TargetRec>)
    requires AllHeaded(rs)
    ensures |Headers(rs)| == |rs|
    ensures forall i :: 0 <= i < |rs| ==> Headers(rs)[i] == (rs[i].tid.value, rs[i].iqn.value)
    decreases |rs|
  {
    if rs != [] {
      var init := rs[..|rs| - 1];
      assert AllHeaded(init) by {
        forall i | 0 <= i < |init| ensures Headed(init[i]) {
          assert init[i] == rs[i];
        }
      }
      HeadersOfHeaded(init);
    }
  }

  /** Over records that all have headers, `unique_tids` gives the tids of the headers. */
  lemma UniqueTidsOfHeaded(rs: seq<TargetRec>, hs: seq<(nat, string)>)
    requires AllHeaded(rs) && Headers(rs) == hs
    ensures UniqueTids(rs) == Ok(set i | 0 <= i < |hs| :: hs[i].0)
  {
    HeadersOfHeaded(rs);
    var tids := set i | 0 <= i < |hs| :: hs[i].0;
    assert UniqueTids(rs).Ok?;
    forall n ensures n in UniqueTids(rs).value <==> n in tids {
      if n in UniqueTids(rs).value {
        var i :| 0 <= i < |rs| && rs[i].tid == Some(n);
        assert hs[i].0 == n;
      }
      if n in tids {
        var i :| 0 <= i < |hs| && hs[i].0 == n;
        assert rs[i].tid == Some(n);
      }
    }
    assert UniqueTids(rs).value == tids;
  }

  /**
   * For a listing without an acl-only first record, `unique_tids` gives
   * exactly the tids of its `Target` lines: the targets the test set-up deletes.
   */
  lemma UniqueTidsOfListing(lines: seq<string>, rs: seq<TargetRec>)
    requires ParseTargets(lines) == Ok(rs)
    requires rs == [] || !AclOnly(rs[0])
    ensures UniqueTids(rs) == Ok(set i | 0 <= i < |TargetLines(lines)| :: TargetLines(lines)[i].0)
  {
    ParseTargetsShape(lines, rs);
    assert AllHeaded(rs);
    UniqueTidsOfHeaded(rs, TargetLines(lines));
  }
}
