/**
 * `list` (iscsi.py:48-77): the output of `iscsi-ls -s` read into a map from
 * target IQN to the target's LUNs, each LUN with its size in bytes. A
 * `Target:` line closes the group being collected, storing it under its target
 * when it holds any LUN, and opens a new one; a `Lun:` line adds one pair to
 * the open group; the last group is stored at the end. `Lun:` lines before
 * any `Target:` line are grouped under the absent target `None`.
 */
module IscsiList {
  import opened Wrappers
  import opened Text
  import opened Iscsi
  import opened Folds

  /** One LUN of a target: its number and its size in bytes. */
  type LunSize = (nat, int)

  /** What `list` returns: the LUNs of each target, keyed by IQN (`None` before any target). */
  type TargetMap = map<Option<string>, seq<LunSize>>

  /** The variables of the loop: `results`, `current_luns` and `current_target`. */
  datatype ListState = ListState(results: TargetMap, currentLuns: seq<LunSize>, currentTarget: Option<string>)

  const ListStart := ListState(map[], [], None)

  /** `results` once the open group is stored, if it holds any LUN (iscsi.py:56-57, 75-76). */
  function Flush(st: ListState): TargetMap {
    if st.currentLuns != [] then st.results[st.currentTarget := st.currentLuns] else st.results
  }

  /**
   * One iteration of the loop (iscsi.py:54-74): the `Target:` test, then the
   * `Lun:` test, on the same line. A size that does not decode raises.
   */
  function ListStep(st: ListState, line: string): Result<ListState, ListError> {
    var target := MatchPortalTarget(line);
    AddLun(if target.Some? then ListState(Flush(st), [], Some(target.value.0)) else st, LunOf(line))
  }

  /** What the `Lun:` test makes of a line: no LUN, a LUN with its size in bytes, or the exception. */
  function LunOf(line: string): Result<Option<LunSize>, ListError> {
    var lun := MatchLunSize(line);
    if lun.None? then Ok(None)
    else
      var bytes := DecodeSize(lun.value.1);
      if bytes.Err? then Err(bytes.error) else Ok(Some((lun.value.0, bytes.value)))
  }

  /** The open group extended by what the `Lun:` test gave. */
  function AddLun(st: ListState, lun: Result<Option<LunSize>, ListError>): Result<ListState, ListError> {
    if lun.Err? then Err(lun.error)
    else if lun.value.None? then Ok(st)
    else Ok(st.(currentLuns := st.currentLuns + [lun.value.value]))
  }

  /** The loop run over `lines` from `st`; the first exception ends it. */
  function ListRunFrom(st: ListState, lines: seq<string>): Result<ListState, ListError> {
    Fold(ListStep, st, lines)
  }

  function ListRun(lines: seq<string>): Result<ListState, ListError> {
    ListRunFrom(ListStart, lines)
  }

  /** What `list` returns for the output `lines`, or the exception it raises. */
  function ListOf(lines: seq<string>): Result<TargetMap, ListError> {
    var run := ListRun(lines);
    if run.Err? then Err(run.error) else Ok(Flush(run.value))
  }

  /** `list` as written: a loop over the lines, storing each group as the next one opens. */
  method List(lines: seq<string>) returns (r: Result<TargetMap, ListError>)
    ensures r == ListOf(lines)
  {
    var results: TargetMap := map[];
    var currentLuns: seq<LunSize> := [];
    var currentTarget: Option<string> := None;
    var i := 0;
    while i < |lines|
      invariant 0 <= i <= |lines|
      invariant ListRun(lines[..i]) == Ok(ListState(results, currentLuns, currentTarget))
    {
      var line := lines[i];
      assert lines[..i + 1] == lines[..i] + [line];
      ListRunSnoc(ListStart, lines[..i], line);

      var target := MatchPortalTarget(line);
      if target.Some? {
        if currentLuns != [] {
          results := results[currentTarget := currentLuns];
        }
        currentTarget := Some(target.value.0);
        currentLuns := [];
      }
      var lun := LunOf(line);
      if lun.Err? {
        r := Err(lun.error);
        ListErrorIsFinal(lines, i + 1);
        return;
      }
      if lun.value.Some? {
        currentLuns := currentLuns + [lun.value.value];
      }
      i := i + 1;
    }
    assert lines[..i] == lines;
    if currentLuns != [] {
      results := results[currentTarget := currentLuns];
    }
    r := Ok(results);
  }

  lemma ListRunSnoc(st: ListState, lines: seq<string>, line: string)
    ensures ListRunFrom(st, lines + [line]) ==
      if ListRunFrom(st, lines).Err? then ListRunFrom(st, lines) else ListStep(ListRunFrom(st, lines).value, line)
  {
    FoldSnoc(ListStep, st, lines, line);
  }

  lemma ListRunAppend(st: ListState, a: seq<string>, b: seq<string>)
    ensures ListRunFrom(st, a + b) ==
      if ListRunFrom(st, a).Err? then ListRunFrom(st, a) else ListRunFrom(ListRunFrom(st, a).value, b)
  {
    FoldAppend(ListStep, st, a, b);
  }

  /** Once the loop raises, the lines after it do not matter. */
  lemma ListErrorIsFinal(lines: seq<string>, k: nat)
    requires k <= |lines| && ListRun(lines[..k]).Err?
    ensures ListOf(lines) == Err(ListRun(lines[..k]).error)
  {
    FoldErrorIsFinal(ListStep, ListStart, lines, k);
  }

  /** A line is never both a `Target:` line and a `Lun:` line. */
  lemma TargetIsNotLun(line: string)
    ensures !(MatchPortalTarget(line).Some? && MatchLunSize(line).Some?)
  {
    LunLineHead(line);
    if MatchPortalTarget(line).Some? {
      assert Body(line).value[0] == 'T';
    }
  }

  /** A `Lun:` line's text starts with `Lun:`. */
  lemma LunLineHead(line: string)
    ensures MatchLunSize(line).Some? ==> Body(line).Some? && |Body(line).value| > 0 && Body(line).value[0] == 'L'
  {
  }

  /** A line whose LUN size does not decode: the line `list` raises on. */
  predicate BadSize(line: string) {
    MatchLunSize(line).Some? && DecodeSize(MatchLunSize(line).value.1).Err?
  }

  lemma StepRaisesIff(st: ListState, line: string)
    ensures ListStep(st, line).Err? <==> BadSize(line)
  {
    assert LunOf(line).Err? <==> BadSize(line);
  }

  /** Some line of `lines` passes the test `bad`. */
  predicate AnyLine(lines: seq<string>, bad: string -> bool)
    decreases |lines|
  {
    lines != [] && (AnyLine(lines[..|lines| - 1], bad) || bad(lines[|lines| - 1]))
  }

  lemma {:induction false} AnyLineIff(lines: seq<string>, bad: string -> bool)
    ensures AnyLine(lines, bad) <==> exists i :: 0 <= i < |lines| && bad(lines[i])
    decreases |lines|
  {
    if lines != [] {
      var init := lines[..|lines| - 1];
      AnyLineIff(init, bad);
      if exists i :: 0 <= i < |lines| && bad(lines[i]) {
        var i :| 0 <= i < |lines| && bad(lines[i]);
        if i < |init| {
          assert init[i] == lines[i];
        }
      }
      if exists i :: 0 <= i < |init| && bad(init[i]) {
        var i :| 0 <= i < |init| && bad(init[i]);
        assert init[i] == lines[i];
      }
    }
  }

  lemma {:induction false} ListRunRaisesIff(st: ListState, lines: seq<string>)
    ensures ListRunFrom(st, lines).Err? <==> AnyLine(lines, BadSize)
    decreases |lines|
  {
    if lines != [] {
      var init, last := lines[..|lines| - 1], lines[|lines| - 1];
      ListRunRaisesIff(st, init);
      if ListRunFrom(st, init).Ok? {
        StepRaisesIff(ListRunFrom(st, init).value, last);
      }
    }
  }

  /** `list` raises exactly when some `Lun:` line carries a size that does not decode. */
  lemma ListRaisesIff(lines: seq<string>)
    ensures ListOf(lines).Err? <==> exists i :: 0 <= i < |lines| && BadSize(lines[i])
  {
    ListRunRaisesIff(ListStart, lines);
    AnyLineIff(lines, BadSize);
  }

  /** Every target `list` reports has at least one LUN. */
  predicate NoEmptyGroups(m: TargetMap) {
    forall k :: k in m ==> m[k] != []
  }

  lemma {:induction false} ListRunNoEmptyGroups(st: ListState, lines: seq<string>)
    requires NoEmptyGroups(st.results)
    ensures ListRunFrom(st, lines).Ok? ==> NoEmptyGroups(ListRunFrom(st, lines).value.results)
    decreases |lines|
  {
    if lines != [] {
      ListRunNoEmptyGroups(st, lines[..|lines| - 1]);
    }
  }

  lemma ListNoEmptyGroups(lines: seq<string>)
    ensures ListOf(lines).Ok? ==> NoEmptyGroups(ListOf(lines).value)
  {
    ListRunNoEmptyGroups(ListStart, lines);
  }

  /** The pairs the `Lun:` lines among `body` give, in order, or the first size that does not decode. */
  function LunPairs(body: seq<string>): Result<seq<LunSize>, ListError> {
    Collect(LunOf, body)
  }

  /** What `lunOf` makes of each line of `body`, in order: the LUNs it finds, or its first error. */
  function Collect(lunOf: string -> Result<Option<LunSize>, ListError>, body: seq<string>): Result<seq<LunSize>, ListError>
    decreases |body|
  {
    if body == [] then Ok([])
    else
      var prefix := Collect(lunOf, body[..|body| - 1]);
      var lun := lunOf(body[|body| - 1]);
      if prefix.Err? then prefix
      else if lun.Err? then Err(lun.error)
      else if lun.value.None? then prefix
      else Ok(prefix.value + [lun.value.value])
  }

  predicate NoTargetLine(body: seq<string>) {
    forall i :: 0 <= i < |body| ==> MatchPortalTarget(body[i]).None?
  }

  /** Without a `Target:` line the loop only extends the open group. */
  lemma ListBody(st: ListState, body: seq<string>)
    requires NoTargetLine(body)
    ensures ListRunFrom(st, body) ==
      if LunPairs(body).Err? then Err(LunPairs(body).error)
      else Ok(st.(currentLuns := st.currentLuns + LunPairs(body).value))
  {
    forall s: ListState, i | 0 <= i < |body|
      ensures ListStep(s, body[i]) == AddLun(s, LunOf(body[i]))
    {
    }
    ListFoldBody(ListStep, LunOf, st, body);
  }

  /** A loop whose every step only adds what `lunOf` finds collects exactly that. */
  lemma {:induction false} ListFoldBody(step: (ListState, string) -> Result<ListState, ListError>,
                                    lunOf: string -> Result<Option<LunSize>, ListError>, st: ListState, body: seq<string>)
    requires forall s: ListState, i :: 0 <= i < |body| ==> step(s, body[i]) == AddLun(s, lunOf(body[i]))
    ensures Fold(step, st, body) ==
      if Collect(lunOf, body).Err? then Err(Collect(lunOf, body).error)
      else Ok(st.(currentLuns := st.currentLuns + Collect(lunOf, body).value))
    decreases |body|
  {
    if body == [] {
      assert st.currentLuns + [] == st.currentLuns;
    } else {
      var init, last := body[..|body| - 1], body[|body| - 1];
      assert forall i :: 0 <= i < |init| ==> init[i] == body[i];
      ListFoldBody(step, lunOf, st, init);
      var lun := lunOf(last);
      if Collect(lunOf, init).Ok? && lun.Ok? && lun.value.Some? {
        assert st.currentLuns + Collect(lunOf, init).value + [lun.value.value]
          == st.currentLuns + (Collect(lunOf, init).value + [lun.value.value]);
      }
    }
  }

  /**
   * A `Target:` line followed by its `Lun:` lines: the group is stored under
   * the target's IQN, replacing whatever an earlier group of the same target
   * stored, and a group without LUNs stores nothing.
   */
  lemma ListAfterTarget(pre: seq<string>, line: string, body: seq<string>)
    requires MatchPortalTarget(line).Some? && NoTargetLine(body)
    ensures ListOf(pre + [line] + body) ==
      if ListOf(pre).Err? then ListOf(pre)
      else if LunPairs(body).Err? then Err(LunPairs(body).error)
      else if LunPairs(body).value == [] then ListOf(pre)
      else Ok(ListOf(pre).value[Some(MatchPortalTarget(line).value.0) := LunPairs(body).value])
  {
    ListRunAppend(ListStart, pre + [line], body);
    ListRunSnoc(ListStart, pre, line);
    if ListRun(pre).Ok? {
      TargetStep(ListRun(pre).value, line);
      var st := ListState(Flush(ListRun(pre).value), [], Some(MatchPortalTarget(line).value.0));
      ListBody(st, body);
      if LunPairs(body).Ok? {
        assert [] + LunPairs(body).value == LunPairs(body).value;
      }
    }
  }

  /** A `Target:` line stores the open group and opens an empty one for its IQN. */
  lemma TargetStep(st: ListState, line: string)
    requires MatchPortalTarget(line).Some?
    ensures ListStep(st, line) == Ok(ListState(Flush(st), [], Some(MatchPortalTarget(line).value.0)))
  {
    TargetIsNotLun(line);
  }

  /** `Lun:` lines before any `Target:` line are grouped under `None`. */
  lemma ListBeforeAnyTarget(body: seq<string>)
    requires NoTargetLine(body)
    ensures ListOf(body) ==
      if LunPairs(body).Err? then Err(LunPairs(body).error)
      else if LunPairs(body).value == [] then Ok(map[])
      else Ok(map[None := LunPairs(body).value])
  {
    ListBody(ListStart, body);
    if LunPairs(body).Ok? {
      assert [] + LunPairs(body).value == LunPairs(body).value;
    }
  }

  // The listing as iscsi-ls prints it, which `list` reads back.

  /** One LUN as the listing shows it: its number, and its size as a number of units. */
  datatype LunEntry = LunEntry(lun: nat, count: nat, unit: Unit)

  /** One target of the listing: its IQN, its portal and its LUNs. */
  datatype PortalGroup = PortalGroup(iqn: string, portal: string, luns: seq<LunEntry>)

  /** The description iscsi-ls prints between the LUN number and the size. */
  const LunDescription := "Type:DIRECT_ACCESS "

  function SizeText(e: LunEntry): string {
    NatToDigits(e.count) + Suffix(e.unit)
  }

  function LunLines(luns: seq<LunEntry>): seq<string> {
    if luns == [] then []
    else
      var e := luns[|luns| - 1];
      LunLines(luns[..|luns| - 1]) + [FormatLunSize(e.lun, LunDescription, SizeText(e))]
  }

  function GroupLines(g: PortalGroup): seq<string> {
    [FormatPortalTarget(g.iqn, g.portal)] + LunLines(g.luns)
  }

  function PortalListing(gs: seq<PortalGroup>): seq<string> {
    if gs == [] then [] else PortalListing(gs[..|gs| - 1]) + GroupLines(gs[|gs| - 1])
  }

  /** The pairs a group stands for: each LUN with its size in bytes. */
  function Pairs(luns: seq<LunEntry>): (r: seq<LunSize>)
    ensures |r| == |luns|
  {
    if luns == [] then []
    else
      var e := luns[|luns| - 1];
      Pairs(luns[..|luns| - 1]) + [(e.lun, e.count * Multiplier(e.unit))]
  }

  /** The map a listing stands for: later groups of a target replace earlier ones, empty groups add nothing. */
  function Targets(gs: seq<PortalGroup>): TargetMap {
    if gs == [] then map[]
    else
      var g := gs[|gs| - 1];
      if g.luns == [] then Targets(gs[..|gs| - 1])
      else Targets(gs[..|gs| - 1])[Some(g.iqn) := Pairs(g.luns)]
  }

  predicate PrintableGroup(g: PortalGroup) {
    IsToken(g.iqn) && IsToken(g.portal)
  }

  lemma LunDescriptionShape()
    ensures !IsSpace(LunDescription[0]) && NoNewline(LunDescription)
  {
    forall i | 0 <= i < |LunDescription|
      ensures LunDescription[i] != '\n'
    {
    }
  }

  lemma SizeTextShape(e: LunEntry)
    ensures |SizeText(e)| > 0 && NoNewline(SizeText(e)) && NoParen(SizeText(e))
    ensures DecodeSize(SizeText(e)) == Ok(e.count * Multiplier(e.unit))
  {
    DigitsWithSuffix(NatToDigits(e.count), e.unit);
    DecodeSizeOfUnit(e.count, e.unit);
  }

  /** Digits and a unit suffix hold no newline and no parenthesis. */
  lemma DigitsWithSuffix(digits: string, u: Unit)
    requires IsDigits(digits)
    ensures var s := digits + Suffix(u); |s| > 0 && NoNewline(s) && NoParen(s)
  {
    var s := digits + Suffix(u);
    forall i | 0 <= i < |s|
      ensures s[i] != '\n' && s[i] != '('
    {
      if i < |digits| {
        assert s[i] == digits[i] && IsDigit(digits[i]);
      } else {
        assert s[i] == Suffix(u)[i - |digits|];
      }
    }
  }

  lemma LunLine(e: LunEntry)
    ensures LunOf(FormatLunSize(e.lun, LunDescription, SizeText(e))) == Ok(Some((e.lun, e.count * Multiplier(e.unit))))
  {
    LunDescriptionShape();
    SizeTextShape(e);
    MatchFormatLunSize(e.lun, LunDescription, SizeText(e));
  }

  lemma LunLineIsNoTarget(e: LunEntry)
    ensures MatchPortalTarget(FormatLunSize(e.lun, LunDescription, SizeText(e))).None?
  {
    LunLine(e);
    TargetIsNotLun(FormatLunSize(e.lun, LunDescription, SizeText(e)));
  }

  lemma LunPairsSnoc(body: seq<string>, line: string)
    ensures LunPairs(body + [line]) ==
      if LunPairs(body).Err? then LunPairs(body)
      else if LunOf(line).Err? then Err(LunOf(line).error)
      else if LunOf(line).value.None? then LunPairs(body)
      else Ok(LunPairs(body).value + [LunOf(line).value.value])
  {
    assert (body + [line])[..|body|] == body;
  }

  lemma {:induction false} LunLinesNoTarget(luns: seq<LunEntry>)
    ensures NoTargetLine(LunLines(luns))
    decreases |luns|
  {
    if luns != [] {
      var init, e := luns[..|luns| - 1], luns[|luns| - 1];
      LunLinesNoTarget(init);
      var line := FormatLunSize(e.lun, LunDescription, SizeText(e));
      LunLineIsNoTarget(e);
      var ls := LunLines(luns);
      assert ls == LunLines(init) + [line];
      assert forall i :: 0 <= i < |ls| - 1 ==> ls[i] == LunLines(init)[i];
    }
  }

  lemma {:induction false} LunLinesPairs(luns: seq<LunEntry>)
    ensures LunPairs(LunLines(luns)) == Ok(Pairs(luns))
    decreases |luns|
  {
    if luns != [] {
      var init, e := luns[..|luns| - 1], luns[|luns| - 1];
      LunLinesPairs(init);
      LunLine(e);
      LunPairsSnoc(LunLines(init), FormatLunSize(e.lun, LunDescription, SizeText(e)));
    }
  }

  /** `list` reads back exactly the map a listing of printable targets stands for. */
  lemma {:induction false} ListRoundTrip(gs: seq<PortalGroup>)
    requires forall i :: 0 <= i < |gs| ==> PrintableGroup(gs[i])
    ensures ListOf(PortalListing(gs)) == Ok(Targets(gs))
    decreases |gs|
  {
    if gs == [] {
      assert Flush(ListStart) == map[];
    } else {
      var init, g := gs[..|gs| - 1], gs[|gs| - 1];
      ListRoundTrip(init);
      MatchFormatPortalTarget(g.iqn, g.portal);
      LunLinesNoTarget(g.luns);
      LunLinesPairs(g.luns);
      var line := FormatPortalTarget(g.iqn, g.portal);
      assert PortalListing(gs) == PortalListing(init) + [line] + LunLines(g.luns);
      ListAfterTarget(PortalListing(init), line, LunLines(g.luns));
    }
  }
}
