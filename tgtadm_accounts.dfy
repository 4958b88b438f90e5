/**
 * `query_account` (tgtadm.py:21-37): the user names of
 * `tgtadm --op show --mode account`. Nothing is collected until the
 * `Account list:` line; after it every line holding one bare token gives a
 * name, other lines are skipped, and the answer is the set of names.
 */
module TgtadmAccounts {
  import opened Wrappers
  import opened Text
  import opened TgtadmLines
  import opened Folds

  /** The `reading_accounts` flag and the `results` list. */
  datatype AccountState = AccountState(reading: bool, names: seq<string>)

  /** One iteration of the loop (tgtadm.py:29-36). */
  function AccountStep(st: AccountState, line: string): AccountState {
    if MatchAccountHeader(line) then st.(reading := true)
    else if st.reading && MatchToken(line).Some? then st.(names := st.names + [MatchToken(line).value])
    else st
  }

  function AccountRun(lines: seq<string>): AccountState {
    Iterate(AccountStep, AccountState(false, []), lines)
  }

  /** The result of `query_account` for the listing `lines`. */
  function Accounts(lines: seq<string>): set<string> {
    var names := AccountRun(lines).names;
    set i | 0 <= i < |names| :: names[i]
  }

  /** The tokens of the lines holding one bare token, in order. */
  function Tokens(lines: seq<string>): seq<string> {
    Values(MatchToken, lines)
  }

  /** The token of a single-token line, or nothing. */
  function TokenOf(line: string): seq<string> {
    OneValue(MatchToken(line))
  }

  /** The token of each single-token line among `lines`: a set that ignores order and repetition. */
  function TokenSet(lines: seq<string>): set<string> {
    ValueSet(MatchToken, lines)
  }

  /** What `f` finds in each of `lines`, in order. */
  function Values(f: string -> Option<string>, lines: seq<string>): seq<string>
    decreases |lines|
  {
    if lines == [] then [] else Values(f, lines[..|lines| - 1]) + OneValue(f(lines[|lines| - 1]))
  }

  function OneValue(o: Option<string>): seq<string> {
    if o.Some? then [o.value] else []
  }

  /** What `f` finds in any of `lines`. */
  function ValueSet(f: string -> Option<string>, lines: seq<string>): set<string> {
    set l | l in lines && f(l).Some? :: f(l).value
  }

  lemma ValuesStep(f: string -> Option<string>, lines: seq<string>, i: nat)
    requires i < |lines|
    ensures Values(f, lines[..i + 1]) == Values(f, lines[..i]) + OneValue(f(lines[i]))
  {
    assert lines[..i + 1][..i] == lines[..i];
  }

  /** The account header is not a one-token line. */
  lemma HeaderIsNoToken(line: string)
    requires MatchAccountHeader(line)
    ensures MatchToken(line).None?
  {
    assert Lead(line) == Some("Account list:");
    assert "Account list:"[7] == ' ';
  }

  /** `query_account` as written: a loop over the lines with a flag. */
  method QueryAccount(lines: seq<string>) returns (r: set<string>)
    ensures r == Accounts(lines)
  {
    var results: seq<string> := [];
    var readingAccounts := false;
    var i := 0;
    while i < |lines|
      invariant 0 <= i <= |lines|
      invariant AccountRun(lines[..i]) == AccountState(readingAccounts, results)
    {
      var line := lines[i];
      assert lines[..i + 1][..i] == lines[..i];
      i := i + 1;
      if MatchAccountHeader(line) {
        readingAccounts := true;
        continue;
      }
      if readingAccounts {
        var m := MatchToken(line);
        if m.Some? {
          results := results + [m.value];
        }
      }
    }
    assert lines[..i] == lines;
    r := set j | 0 <= j < |results| :: results[j];
  }

  lemma {:induction false} RunAppend(a: seq<string>, b: seq<string>)
    ensures AccountRun(a + b).reading == (AccountRun(a).reading || exists l :: l in b && MatchAccountHeader(l))
    ensures !(exists l :: l in b && MatchAccountHeader(l)) && !AccountRun(a).reading ==> AccountRun(a + b) == AccountRun(a)
    decreases |b|
  {
    if b != [] {
      var init, last := b[..|b| - 1], b[|b| - 1];
      assert a + b == (a + init) + [last];
      assert forall l :: l in b <==> l in init || l == last;
      RunAppend(a, init);
      RunSnoc(a + init, last);
    } else {
      assert a + b == a;
    }
  }

  lemma RunSnoc(a: seq<string>, line: string)
    ensures AccountRun(a + [line]) == AccountStep(AccountRun(a), line)
  {
    IterateSnoc(AccountStep, AccountState(false, []), a, line);
  }

  /** While reading accounts, a line adds its token if it has one; another header changes nothing. */
  lemma ReadingStep(st: AccountState, line: string)
    requires st.reading
    ensures AccountStep(st, line) == AccountState(true, st.names + TokenOf(line))
  {
    if MatchAccountHeader(line) {
      HeaderIsNoToken(line);
      assert st.names + [] == st.names;
    }
  }

  /** From an `Account list:` line on, every single-token line adds its token. */
  lemma RunAfterHeader(pre: seq<string>, header: string, post: seq<string>)
    requires MatchAccountHeader(header)
    ensures AccountRun(pre + [header] + post) ==
      AccountState(true, AccountRun(pre).names + Tokens(post))
  {
    var base := AccountRun(pre).names;
    var states := seq(|post| + 1, i requires 0 <= i <= |post| => AccountState(true, base + Tokens(post[..i])));
    forall i | 0 <= i < |post|
      ensures AccountStep(states[i], post[i]) == states[i + 1]
    {
      ValuesStep(MatchToken, post, i);
      ReadingStep(states[i], post[i]);
      assert base + Tokens(post[..i]) + TokenOf(post[i]) == base + Tokens(post[..i + 1]);
    }
    RunSnoc(pre, header);
    assert states[0] == AccountRun(pre + [header]) by {
      assert post[..0] == [];
      assert base + [] == base;
    }
    IterateAppend(AccountStep, AccountState(false, []), pre + [header], post);
    IterateAlong(AccountStep, post, states);
    assert post[..|post|] == post;
  }

  /** The values `f` finds, as a set, are what it finds in any line. */
  lemma {:induction false} ValuesAreValueSet(f: string -> Option<string>, lines: seq<string>)
    ensures (set i | 0 <= i < |Values(f, lines)| :: Values(f, lines)[i]) == ValueSet(f, lines)
    decreases |lines|
  {
    if lines != [] {
      var init, last := lines[..|lines| - 1], lines[|lines| - 1];
      ValuesAreValueSet(f, init);
      var t := Values(f, lines);
      assert forall l :: l in lines <==> l in init || l == last;
      assert t == Values(f, init) + OneValue(f(last));
      forall x | x in ValueSet(f, lines)
        ensures x in (set i | 0 <= i < |t| :: t[i])
      {
        var l :| l in lines && f(l).Some? && f(l).value == x;
        if l == last {
          assert t[|t| - 1] == x;
        } else {
          assert x in ValueSet(f, init);
          var i :| 0 <= i < |Values(f, init)| && Values(f, init)[i] == x;
          assert t[i] == x;
        }
      }
      forall x | x in (set i | 0 <= i < |t| :: t[i])
        ensures x in ValueSet(f, lines)
      {
        var i :| 0 <= i < |t| && t[i] == x;
        if i < |Values(f, init)| {
          assert Values(f, init)[i] == x;
          assert x in ValueSet(f, init);
          var l :| l in init && f(l).Some? && f(l).value == x;
          assert l in lines;
        } else {
          assert f(last).Some? && x == f(last).value;
          assert last in lines;
        }
      }
    }
  }

  lemma TokensAreTokenSet(lines: seq<string>)
    ensures (set i | 0 <= i < |Tokens(lines)| :: Tokens(lines)[i]) == TokenSet(lines)
  {
    ValuesAreValueSet(MatchToken, lines);
    var t := Tokens(lines);
    assert t == Values(MatchToken, lines);
    assert (set i | 0 <= i < |t| :: t[i]) == (set i | 0 <= i < |Values(MatchToken, lines)| :: Values(MatchToken, lines)[i]);
  }

  /**
   * Lines before the first `Account list:` line contribute nothing; after it
   * the result is exactly the set of tokens of the single-token lines.
   */
  lemma AccountsAfterFirstHeader(pre: seq<string>, header: string, post: seq<string>)
    requires forall l :: l in pre ==> !MatchAccountHeader(l)
    requires MatchAccountHeader(header)
    ensures Accounts(pre + [header] + post) == TokenSet(post)
  {
    RunAppend([], pre);
    assert [] + pre == pre;
    RunAfterHeader(pre, header, post);
    assert AccountRun(pre).names + Tokens(post) == Tokens(post);
    TokensAreTokenSet(post);
  }

  /** Without an `Account list:` line the result is empty. */
  lemma NoHeaderNoAccounts(lines: seq<string>)
    requires forall l :: l in lines ==> !MatchAccountHeader(l)
    ensures Accounts(lines) == {}
  {
    RunAppend([], lines);
    assert [] + lines == lines;
  }

  /** Reordering or repeating the lines after the header does not change the result. */
  lemma AccountsOrderFree(pre: seq<string>, header: string, a: seq<string>, b: seq<string>)
    requires forall l :: l in pre ==> !MatchAccountHeader(l)
    requires MatchAccountHeader(header)
    requires forall l :: l in a <==> l in b
    ensures Accounts(pre + [header] + a) == Accounts(pre + [header] + b)
  {
    AccountsAfterFirstHeader(pre, header, a);
    AccountsAfterFirstHeader(pre, header, b);
  }

  /** The account listing as tgtadm prints it: the header, then one indented name per line. */
  function AccountListing(indent: string, users: seq<string>): seq<string> {
    ["Account list:\n"] + EntryLines(indent, users)
  }

  lemma TokensOfEntryLines(indent: string, users: seq<string>)
    requires AllSpace(indent) && forall i :: 0 <= i < |users| ==> IsToken(users[i])
    ensures Tokens(EntryLines(indent, users)) == users
  {
    var lines := EntryLines(indent, users);
    EntryLinesAt(indent, users);
    forall i | 0 <= i < |lines|
      ensures MatchToken(lines[i]) == Some(users[i])
    {
      MatchFormatEntry(indent, users[i]);
    }
    ValuesOfAll(MatchToken, lines, users);
  }

  /** When `f` finds `vals[i]` in the `i`th line, it finds exactly `vals`. */
  lemma {:induction false} ValuesOfAll(f: string -> Option<string>, lines: seq<string>, vals: seq<string>)
    requires |lines| == |vals|
    requires forall i :: 0 <= i < |lines| ==> f(lines[i]) == Some(vals[i])
    ensures Values(f, lines) == vals
    decreases |lines|
  {
    if lines != [] {
      var n := |lines| - 1;
      ValuesOfAll(f, lines[..n], vals[..n]);
      assert vals == vals[..n] + [vals[n]];
    }
  }

  /** `query_account` reads back exactly the names of an account listing. */
  lemma AccountListingRoundTrip(indent: string, users: seq<string>)
    requires AllSpace(indent) && forall i :: 0 <= i < |users| ==> IsToken(users[i])
    ensures Accounts(AccountListing(indent, users)) == set i | 0 <= i < |users| :: users[i]
  {
    BodyOfLine("Account list:");
    assert "Account list:" + "\n" == "Account list:\n";
    assert AccountListing(indent, users) == [] + ["Account list:\n"] + EntryLines(indent, users);
    RunAfterHeader([], "Account list:\n", EntryLines(indent, users));
    TokensOfEntryLines(indent, users);
    assert [] + users == users;
  }
}
