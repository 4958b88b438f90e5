# iSCSI test-harness parsers, modelled in Dafny

This project models the two line-driven parsers of an iSCSI storage test
harness, together with the small pure helpers around them.

- `tgtadm.py` drives the Linux SCSI target daemon through `tgtadm`:
  - `query_target` reads the target listing (targets, their logical units,
    their ACLs) into records. It does this with a small state machine: a
    current target, a pending LUN and an ACL-reading flag.
  - `query_account` reads the account listing into a set of user names.
  - `unique_tids` collects the target ids.
  - Eight builders make the `tgtadm` argument vectors.
  - `unique_iqn` hands out fresh target names from a global counter.
- `iscsi.py` reads what the initiator-side tools print:
  - `list` groups the LUNs of `iscsi-ls -s` under their target IQN and
    decodes each LUN's human-readable size with binary multipliers.
  - `page80`, `page83` and `vendor` pick one field out of `iscsi-inq`
    output: the unit serial number (VPD page 0x80), the device
    identification designator (VPD page 0x83) and the vendor.

The tool output that `util.run` returns becomes a parameter
`lines: seq<string>`, each line ending in `"\n"`. Each regular expression of
the source is a matcher function: on the line with its final `"\n"` removed
(and a second `"\n"` if present, which is what Python's `\n$` accepts), the
matcher checks the pattern's prefix, splits the tokens and reads the digit
runs. `\s` is space, tab, newline, carriage return, vertical tab and form
feed; `\S+` is a non-empty run of other characters. Python exceptions become
`Err` values of a `Result`.

Each imperative loop of the source is a `method` with the same branches,
proved equal to a transition function folded over the lines:
- `QueryTarget` is proved against `Step` and `ParseTargets`;
- `QueryAccount` against `AccountStep` and `Accounts`;
- `List` against `ListStep` and `ListOf`.

The properties are lemmas about those functions. Every matcher is paired with
a formatter for the line as the tool prints it, and a lemma shows that the
matcher reads the formatted line back. Whole listings get round-trip lemmas:
`TgtadmListing.ListingRoundTrip`, `TgtadmAccounts.AccountListingRoundTrip`
and `IscsiList.ListRoundTrip`.

Modules:
- `Wrappers` holds `Option` and `Result`.
- `Text` holds characters, digit strings, prefixes and line bodies.
- `Folds` holds the two loop shapes (a loop body that may raise and one that
  cannot) and lemmas on how such loops split, compose and keep invariants.
- `TgtadmLines` holds the `query_target`/`query_account` line patterns.
- `Tgtadm` models `query_target` and `unique_tids`.
- `TgtadmListing` holds the printed target listing and its round trip.
- `TgtadmAccounts` models `query_account`.
- `TgtadmCommands` holds the argument vectors.
- `TgtadmIqn` models `unique_iqn`.
- `Iscsi` holds the `iscsi.py` line patterns, size decoding and the inquiry
  extractors.
- `IscsiList` models `list`.

Two points of the code's LUN handling are worth stating up front:
- **A LUN is flushed at two points.** A pending LUN is appended at the next
  `LUN:` line and at its `Backing store path:` line (tgtadm.py:69-74, 82-87),
  and the model keeps both.
- **A LUN still pending at end of input is dropped.** Only `current` is
  flushed after the loop (tgtadm.py:94-96), as `Tgtadm.PendingLunDropped`
  states.

## Model

| member | source | states |
|---|---|---|
| Text.IntToString | tgtadm.py:104 | `str(n)` of an integer is read back by the integer parser, giving the same integer |
| TgtadmLines.MatchToken | tgtadm.py:34 | `\s*(\S+)\n$` gives a token, and the token is the line's whole text after the leading whitespace |
| TgtadmLines.MatchTarget | tgtadm.py:51 | `Target (\d+): (\S+)\n$` gives an IQN that is a single token; where the two groups come from is stated by `MatchTargetSound` |
| TgtadmLines.MatchTargetSound | tgtadm.py:51 | a matched line's text is exactly `Target `, a digit run whose value is the tid, `: ` and the IQN, which is a single token |
| TgtadmLines.MatchLun | tgtadm.py:69 | no contract of its own; `MatchLunSound` and `MatchFormatLun` state the two directions of `\s*LUN: (\d+)\n$` |
| TgtadmLines.MatchLunSound | tgtadm.py:69 | a matched line's text is, after leading whitespace, exactly `LUN: ` and a digit run whose value is the LUN id |
| TgtadmLines.MatchScsiId | tgtadm.py:75 | `\s*SCSI ID: (\S+)\s+(\S+)\n$` gives a vendor and an id, both tokens; where they come from is stated by `MatchScsiIdSound` |
| TgtadmLines.MatchScsiIdSound | tgtadm.py:75 | a matched line's text is, after leading whitespace, exactly `SCSI ID: `, the vendor, a non-empty whitespace run and the id, both tokens |
| TgtadmLines.MatchScsiSn | tgtadm.py:79 | `\s*SCSI SN: (\S+)\n$` gives a token, and the line's text after leading whitespace is exactly `SCSI SN: ` and that token |
| TgtadmLines.MatchBackingPath | tgtadm.py:82 | `\s*Backing store path: (\S+)\n$` gives a token, and the line's text after leading whitespace is exactly `Backing store path: ` and that token |
| TgtadmLines.MatchAclHeader | tgtadm.py:89 | no contract of its own: the line's text after leading whitespace is exactly `ACL information:`; `MatchFormatAclHeader` states that the printed header matches |
| TgtadmLines.MatchAccountHeader | tgtadm.py:29 | no contract of its own: the line's text is exactly `Account list:`; `TgtadmAccounts.HeaderIsNoToken` states that it is never read as a name |
| TgtadmLines.PatternsExclusive | tgtadm.py:51-92 | at most one of the seven `query_target` patterns matches any line |
| TgtadmLines.Classify | tgtadm.py:51-92 | each line kind holds exactly when its pattern matches, and its fields are the pattern's groups |
| TgtadmLines.MatchFormatTarget | tgtadm.py:51 | a printed `Target <tid>: <iqn>` line is read back as that tid and IQN |
| TgtadmLines.MatchFormatLun | tgtadm.py:69 | an indented `LUN: <n>` line is read back as `n` |
| TgtadmLines.MatchFormatScsiId | tgtadm.py:75 | an indented `SCSI ID:` line with any whitespace gap is read back as its vendor and id |
| TgtadmLines.MatchFormatScsiSn | tgtadm.py:79 | an indented `SCSI SN:` line is read back as its serial |
| TgtadmLines.MatchFormatBackingPath | tgtadm.py:82 | an indented `Backing store path:` line is read back as its path |
| TgtadmLines.MatchFormatAclHeader | tgtadm.py:89 | an indented `ACL information:` line matches the ACL header pattern |
| TgtadmLines.MatchFormatEntry | tgtadm.py:62 | an indented one-token line is read back as that token |
| TgtadmLines.UnrecognisedLine | tgtadm.py:50-92 | an indented line that is more than one token and starts with none of the patterns' keywords matches no pattern |
| Folds.FoldAppend | tgtadm.py:50-92 | a loop over `a + b` is the loop over `a` continued over `b`, unless `a` already raised |
| Folds.FoldInvariant | tgtadm.py:50-92 | a property of the lines read and the state that each iteration keeps holds when the loop ends, and an exception raised from such a state is one each iteration allows |
| Folds.IterateAppend | tgtadm.py:28-36 | a loop that cannot raise over `a + b` is the loop over `a` continued over `b` |
| Tgtadm.RunFromGood | tgtadm.py:50-92 | from a well-formed state the loop keeps every record well-formed, the records' headers grow by the `Target` lines read, in order, and `KeyError('acl')` never arises |
| Tgtadm.Step | tgtadm.py:50-92 | no contract of its own; one iteration of the loop, whose behaviour per kind of line is stated by `TargetLineStep`, `LunStep`, `ScsiIdStep`, `ScsiSnStep`, `BackingPathStep`, `AclSection`, `AclRejects` and `SkipStep`, and whose invariant is `RunFromGood`'s |
| Tgtadm.ParseTargets | tgtadm.py:39-97 | no contract of its own; `QueryTarget` computes it, and `ParseTargetsShape`, `NoAclKeyError` and `ListingRoundTrip` state what it returns |
| Tgtadm.QueryTarget | tgtadm.py:39-97 | the loop, with its early exits on exceptions, returns exactly `ParseTargets(lines)` |
| Tgtadm.ErrorIsFinal | tgtadm.py:66 | once a prefix of the lines raises, the whole listing raises the same exception |
| Tgtadm.ParseTargetsShape | tgtadm.py:51-58 | the records' (tid, IQN) pairs are those of the `Target` lines, in input order; every record but the first came from a `Target` line, and the first came from one or holds only an ACL |
| Tgtadm.TargetLineStep | tgtadm.py:51-59 | a `Target` line emits the current record, starts a record with its tid, IQN and empty `luns`, keeps the pending LUN and turns ACL reading off, even in ACL mode |
| Tgtadm.AclSection | tgtadm.py:61-67 | `ACL information:` resets `acl` to `[]` and starts ACL reading; the one-token lines after it become the ACL, in order |
| Tgtadm.AclEntriesAppended | tgtadm.py:61-64 | in ACL reading each one-token line appends its token to `acl`, in order |
| Tgtadm.AclRejects | tgtadm.py:61-66 | in ACL reading, a line that is neither a `Target` line nor a single token raises the parse failure for that line |
| Tgtadm.NoAclKeyError | tgtadm.py:61-64 | no listing raises `KeyError('acl')`: ACL reading is only on once `acl` is set |
| Tgtadm.KeyErrorOnlyBeforeTarget | tgtadm.py:69-87 | a listing that starts with a `Target` line can raise only the ACL parse failure, never a `KeyError` |
| Tgtadm.LunStep | tgtadm.py:69-74 | a `LUN:` line appends the pending LUN if there is one (a `KeyError` without `luns`) and starts a new LUN with that id |
| Tgtadm.ScsiIdStep | tgtadm.py:75-78 | a `SCSI ID:` line sets the pending LUN's vendor and id |
| Tgtadm.ScsiSnStep | tgtadm.py:79-81 | a `SCSI SN:` line sets the pending LUN's serial |
| Tgtadm.BackingPathStep | tgtadm.py:82-87 | a `Backing store path:` line sets the path, appends the LUN (a `KeyError` without `luns`) and clears the pending LUN |
| Tgtadm.SkipStep | tgtadm.py:50-92 | outside ACL reading, a line no pattern matches changes nothing |
| Tgtadm.LunAppendedOnce | tgtadm.py:69-87 | `LUN:`, `Backing store path:`, `LUN:` appends the first LUN exactly once, and the second LUN stays pending |
| Tgtadm.LunWithoutPathFlushed | tgtadm.py:69-74 | a `LUN:` line appends a pending LUN that never got a backing path |
| Tgtadm.PendingLunDropped | tgtadm.py:94-97 | a LUN still pending at end of input is not in the result |
| Tgtadm.PendingLunCrossesTarget | tgtadm.py:53-58 | a new `Target` line does not clear the pending LUN, and the next backing path appends it to the new target |
| Tgtadm.UniqueTids | tgtadm.py:99-100 | the result is exactly the set of the records' `tid` fields; a record without `tid` raises `KeyError('tid')` |
| Tgtadm.UniqueTidsOfListing | tgtadm.py:99-100 | on a listing that starts with a `Target` line, `unique_tids` gives exactly the tids of the `Target` lines |
| TgtadmListing.ListingRoundTrip | tgtadm.py:39-97 | `query_target` reads a complete printed target listing back as exactly the records it was printed from |
| TgtadmAccounts.AccountStep | tgtadm.py:29-36 | no contract of its own; one iteration of the loop, stated by `ReadingStep` and `RunAfterHeader` |
| TgtadmAccounts.Accounts | tgtadm.py:21-37 | no contract of its own; `QueryAccount` computes it, and `AccountsAfterFirstHeader`, `NoHeaderNoAccounts` and `AccountListingRoundTrip` state what it returns |
| TgtadmAccounts.HeaderIsNoToken | tgtadm.py:29-34 | the `Account list:` line is not a one-token line, so it is never taken as a name |
| TgtadmAccounts.ReadingStep | tgtadm.py:29-36 | once reading, a line appends its token if it is a one-token line and changes nothing otherwise, a repeated header included |
| TgtadmAccounts.QueryAccount | tgtadm.py:21-37 | the flag-driven loop returns exactly `Accounts(lines)` |
| TgtadmAccounts.RunAfterHeader | tgtadm.py:29-36 | once the `Account list:` line is read, each later one-token line appends its token, in order, and no other line changes anything |
| TgtadmAccounts.TokensAreTokenSet | tgtadm.py:37 | the set built from the collected tokens is exactly the set of tokens of the one-token lines |
| TgtadmAccounts.AccountsAfterFirstHeader | tgtadm.py:27-36 | lines before the first `Account list:` contribute nothing; after it the result is the set of tokens of the one-token lines, and no other line raises |
| TgtadmAccounts.NoHeaderNoAccounts | tgtadm.py:27-33 | without an `Account list:` line the result is empty |
| TgtadmAccounts.AccountsOrderFree | tgtadm.py:37 | reordering or repeating the lines after the header leaves the set unchanged |
| TgtadmAccounts.AccountListingRoundTrip | tgtadm.py:21-37 | a printed account listing is read back as exactly its set of user names |
| TgtadmCommands.QueryAccountArgv | tgtadm.py:23 | the account listing command decodes as a request to show accounts |
| TgtadmCommands.QueryTargetArgv | tgtadm.py:41 | the target listing command decodes as a request to show targets |
| TgtadmCommands.Command | tgtadm.py:19 | every vector is the fixed `tgtadm --lld iscsi` prefix, then `--op`, `--mode` and the options |
| TgtadmCommands.New | tgtadm.py:102-105 | the vector decodes as exactly "new target `tid` named `iqn`" |
| TgtadmCommands.Delete | tgtadm.py:107-110 | the vector's single option is `--tid=<tid>`, and it decodes as exactly "delete target `tid`" |
| TgtadmCommands.AddLun | tgtadm.py:114-117 | the vector decodes as exactly "new LUN `lun` of target `tid` backed by `device`" |
| TgtadmCommands.RemoveLun | tgtadm.py:119-122 | the vector decodes as exactly "delete LUN `lun` of target `tid`" |
| TgtadmCommands.AddInitiator | tgtadm.py:124-127 | the vector decodes as exactly "bind `initiator` to target `tid`" |
| TgtadmCommands.RemoveInitiator | tgtadm.py:129-132 | the vector decodes as exactly "unbind `initiator` from target `tid`" |
| TgtadmCommands.AddUser | tgtadm.py:134-137 | the vector decodes as exactly "new account `username` with `password`" |
| TgtadmCommands.RemoveUser | tgtadm.py:139-142 | the vector decodes as exactly "delete account `username`" |
| TgtadmCommands.ArgvInjective | tgtadm.py:102-142 | two different requests never produce the same vector |
| TgtadmCommands.DefaultInitiatorIsAll | tgtadm.py:124-132 | with the initiator left out, binding and unbinding name the initiator `ALL` |
| TgtadmIqn.IqnFor | tgtadm.py:152-154 | no contract of its own; `IqnForInjective` states that different counter values give different names |
| TgtadmIqn.IqnForInjective | tgtadm.py:152-154 | different counter values give different names `iqn.2001-04.com.example:<n>` |
| TgtadmIqn.IqnCounter.constructor | tgtadm.py:149 | the counter starts at 1, and no name has been handed out |
| TgtadmIqn.IqnCounter.UniqueIqn | tgtadm.py:150-154 | the counter goes up by one, and the name returned is the one for the new value; it was never handed out before, and it joins the set of names handed out |
| Iscsi.MatchSerial | iscsi.py:26 | `^Unit Serial Number:\[(.+)\]\n$` gives the non-empty, newline-free text between the opening and the last `]` |
| Iscsi.MatchDesignator | iscsi.py:35 | `^Designator:\[(.+)\]\n$` gives the text between `Designator:[` and the last `]` |
| Iscsi.MatchVendor | iscsi.py:43 | `^Vendor:(.+)\n$` gives the non-empty rest of the line |
| Iscsi.MatchPortalTarget | iscsi.py:54 | `^Target:(\S+) Portal:(\S+)\n$` gives two tokens, and the line is exactly `Target:<iqn> Portal:<portal>` |
| Iscsi.LastSizeAtOrBeforeSpec | iscsi.py:60 | the position found holds `(Size:` and no later one up to the bound does; none is found exactly when there is none: the last `(Size:`, which is where the greedy `.*` stops |
| Iscsi.MatchLunSize | iscsi.py:60 | `^Lun:(\d+)\s+.*\(Size:(.+)\)\n$` gives a LUN number and a non-empty, newline-free size text; where they come from is stated by `MatchLunSizeSound` |
| Iscsi.SizeFieldSound | iscsi.py:60 | what `.*\(Size:(.+)\)` takes from the text is a description, then the last `(Size:` that leaves a non-empty size text, then the size text and the final `)` |
| Iscsi.MatchLunSizeSound | iscsi.py:60 | a matched line's text is exactly `Lun:`, a digit run whose value is the LUN number, a non-empty whitespace run, a description, the last usable `(Size:`, the non-empty, newline-free size text and `)` |
| Iscsi.MatchFormatPortalTarget | iscsi.py:54 | a printed `Target:` line is read back as its IQN and portal |
| Iscsi.MatchFormatLunSize | iscsi.py:60 | a printed `Lun:` line is read back as its number and size text, when its description has no newline and does not start with whitespace, and the size text holds no `(` |
| Iscsi.MatchFormatSerial | iscsi.py:26 | a printed serial-number line is read back as its serial |
| Iscsi.MatchFormatDesignator | iscsi.py:35 | a printed designator line is read back as its designator |
| Iscsi.MatchFormatVendor | iscsi.py:43 | a printed vendor line is read back as its vendor |
| Iscsi.UnitOf | iscsi.py:64-72 | the unit is `Bytes` exactly when the size text does not end in `k`, `M`, `G` or `T`, and otherwise the unit whose suffix is the last character; the suffix picked is one the text really ends in |
| Iscsi.Long | iscsi.py:65-73 | no contract of its own; `PlainNumber` states that a digit string reads as its value, and the texts it rejects are listed under "Left out" |
| Iscsi.PlainNumber | iscsi.py:72-73 | a printed natural number has no unit suffix, and `long()` reads it back as that number |
| Iscsi.DecodeSize | iscsi.py:63-73 | no contract of its own; `DecodeSizeOfUnit` and `DecodeSizeExamples` state its value on a number with each unit |
| Iscsi.DecodeSizeOfUnit | iscsi.py:63-73 | a number followed by `k`, `M`, `G`, `T` or nothing decodes to that number times 1024, 1024², 1024³, 1024⁴ or 1 |
| Iscsi.DecodeSizeExamples | iscsi.py:63-73 | `"512"` is 512 bytes and `"2M"` is 2097152 bytes |
| Iscsi.FirstMatch | iscsi.py:25-29 | the result is `None` exactly when no line matches, and otherwise the match of the first matching line |
| Iscsi.Page80 | iscsi.py:23-29 | the serial of the first `Unit Serial Number:[...]` line, or `None` exactly when no line has one |
| Iscsi.Vendor | iscsi.py:40-45 | the text after `Vendor:` on the first line that has it, or `None` exactly when none does |
| Iscsi.Page83AsWritten | iscsi.py:32-37 | `None` exactly when there is no output; otherwise the first line's designator, and an `AttributeError` exactly when the first line is not a designator line |
| Iscsi.Page83 | iscsi.py:32-37 | the designator of the first `Designator:[...]` line, or `None` exactly when no line has one |
| Iscsi.Page83AgreesOnFirstLine | iscsi.py:34-37 | when the output is empty or starts with a designator line, both readings of `page83` agree |
| Iscsi.Page83MissesLaterDesignator | iscsi.py:34-37 | on output whose designator comes second, as written `page83` raises, while the first-match reading finds it |
| IscsiList.ListStep | iscsi.py:53-74 | no contract of its own; one iteration of the loop, stated by `TargetStep`, `StepRaisesIff` and `ListBody` |
| IscsiList.ListOf | iscsi.py:48-77 | no contract of its own; `List` computes it, and `ListAfterTarget`, `ListRaisesIff`, `ListNoEmptyGroups` and `ListRoundTrip` state what it returns |
| IscsiList.List | iscsi.py:48-77 | the loop, with its early exit when a size does not decode, returns exactly `ListOf(lines)` |
| IscsiList.ListErrorIsFinal | iscsi.py:65-73 | once a prefix of the lines raises, later lines do not matter |
| IscsiList.TargetIsNotLun | iscsi.py:54-60 | no line is both a `Target:` line and a `Lun:` line |
| IscsiList.StepRaisesIff | iscsi.py:60-74 | one iteration raises exactly on a `Lun:` line whose size does not decode |
| IscsiList.ListRaisesIff | iscsi.py:60-74 | `list` raises exactly when some `Lun:` line carries a size that does not decode |
| IscsiList.ListNoEmptyGroups | iscsi.py:56-57 | every target in the result has at least one LUN |
| IscsiList.ListBody | iscsi.py:60-74 | without `Target:` lines, each `Lun:` line appends its (number, bytes) pair to the open group, in input order |
| IscsiList.TargetStep | iscsi.py:54-59 | a `Target:` line stores the open group, if it is non-empty, and opens an empty group for its IQN |
| IscsiList.ListAfterTarget | iscsi.py:54-76 | a `Target:` line followed by its `Lun:` lines stores their pairs under its IQN, replacing an earlier group of the same IQN; a group without LUNs stores nothing; the last group is stored at the end |
| IscsiList.ListBeforeAnyTarget | iscsi.py:50-51 | `Lun:` lines before any `Target:` line are stored under the key `None` |
| IscsiList.LunLinesPairs | iscsi.py:60-74 | printed `Lun:` lines decode to their numbers and sizes in bytes, in order |
| IscsiList.ListRoundTrip | iscsi.py:48-77 | a printed portal listing is read back as exactly its map from target to LUNs, later groups of a target replacing earlier ones and empty groups absent |

## Left out

- `util.run` and `log`: they spawn processes and write logs. Each query takes
  the tool's output as `lines`, and each command builder returns its argument
  vector instead of running it.
- The command lines of `iscsi.py` (iscsi.py:19-20, 24, 33, 41, 52): they are
  only handed to `run`, which is not modelled, so there is nothing to parse;
  the extractors take the output lines directly.
- `make_sparse_file` (tgtadm.py:156-163): it works on the filesystem through
  `dd` and `os.unlink`.
- The `unittest` classes and the `__main__` blocks: their assertions depend
  on a live daemon.
- The thread and memory remark at tgtadm.py:112: it concerns the daemon, not
  the logic here.
- The unused `acl = []` at tgtadm.py:44: no code path reads it.
- The regular-expression engine in general: each pattern the source uses is
  modelled as its own matcher.
- Iscsi.DecodeSize: `long()` is modelled on an optional `-` followed by
  decimal digits. Python 2 would also accept surrounding whitespace, a
  leading `+` and a trailing `L` or `l` (as in `"5L"`); the model treats
  those texts as the `ValueError` case.
- TgtadmLines.MatchTarget: its own contract states only that the IQN is a
  token. Where the tid and the IQN come from in the line is stated by
  `MatchTargetSound`, a separate lemma, so that the proofs that use the
  matcher do not carry the line's decomposition.
- TgtadmLines.MatchScsiId: its own contract states only that vendor and id
  are tokens; `MatchScsiIdSound` states where they come from, for the same
  reason.
- Iscsi.MatchLunSize: its own contract states only that the size text is
  non-empty and newline-free; `MatchLunSizeSound` states where the number
  and the size text come from, for the same reason.
- Python 2 string exceptions and `KeyError`/`AttributeError`/`ValueError`:
  they are typed error values (`ParseError`, `InquiryError`, `ListError`).
  Their messages and the place of the traceback are not modelled.
- TgtadmIqn.IqnCounter.UniqueIqn: the counter is a field of an object rather
  than a module-level global. The set of names handed out is ghost state that
  the source does not keep.
- Tgtadm.QueryTarget: the dictionaries are modelled as values. This is
  faithful because the code rebinds a fresh `{}` after every append, so no
  appended dictionary is changed later.

## Findings

| source | as written | input that shows it | evidently intended | confidence | as-written member | corrected member |
|---|---|---|---|---|---|---|
| iscsi.py:34-37 | the `return` inside the loop runs on the first iteration, so only the first line is read, and a first line that is not a designator line makes `m.group(1)` raise `AttributeError` on `None` | `["Identification descriptors:\n", "Designator:[abc]\n"]` | return the designator of the first line that has one, or `None`, as `page80` and `vendor` do | not executed | Iscsi.Page83AsWritten, Iscsi.Page83MissesLaterDesignator | Iscsi.Page83 |
