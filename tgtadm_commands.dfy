/**
 * The argument vectors tgtadm.py hands to `run` (tgtadm.py:19-142). Each
 * builder is paired with `DecodeArgv`, a reading of the vector by position the
 * way `tgtadm` takes its options, and each builder's result is shown to decode
 * back to exactly the request it was built from.
 */
module TgtadmCommands {
  import opened Wrappers
  import opened Text

  /** The fixed prefix of every command (tgtadm.py:19). */
  const Tgtadm: seq<string> := ["/usr/sbin/tgtadm", "--lld", "iscsi"]

  /** What one invocation of the administrative tool asks the daemon to do. */
  datatype Request =
    | ShowAccounts
    | ShowTargets
    | NewTarget(tid: int, iqn: string)
    | DeleteTarget(tid: int)
    | NewLun(tid: int, lun: int, device: string)
    | DeleteLun(tid: int, lun: int)
    | BindInitiator(tid: int, initiator: string)
    | UnbindInitiator(tid: int, initiator: string)
    | NewAccount(username: string, password: string)
    | DeleteAccount(username: string)

  /** The number after `--tid=`, the form `delete` uses for its one target option. */
  function ParseTidEquals(opt: string): Option<int> {
    match StripPrefix("--tid=", opt)
    case None => None
    case Some(digits) => ParseInt(digits)
  }

  /** The daemon's view of an argument vector: which request it spells, if any. */
  function DecodeArgv(argv: seq<string>): Option<Request> {
    if |argv| < 7 || argv[..3] != Tgtadm || argv[3] != "--op" || argv[5] != "--mode" then None
    else
      var op, mode, opts := argv[4], argv[6], argv[7..];
      if opts == [] then
        if op == "show" && mode == "account" then Some(ShowAccounts)
        else if op == "show" && mode == "target" then Some(ShowTargets)
        else None
      else if |opts| == 1 then
        if op == "delete" && mode == "target" && ParseTidEquals(opts[0]).Some? then
          Some(DeleteTarget(ParseTidEquals(opts[0]).value))
        else None
      else if |opts| == 2 then
        if op == "delete" && mode == "account" && opts[0] == "--user" then Some(DeleteAccount(opts[1]))
        else None
      else if |opts| == 4 then
        if opts[0] == "--tid" && ParseInt(opts[1]).Some? then
          var tid := ParseInt(opts[1]).value;
          if op == "new" && mode == "target" && opts[2] == "-T" then Some(NewTarget(tid, opts[3]))
          else if op == "delete" && mode == "logicalunit" && opts[2] == "--lun" && ParseInt(opts[3]).Some? then
            Some(DeleteLun(tid, ParseInt(opts[3]).value))
          else if op == "bind" && mode == "target" && opts[2] == "-I" then Some(BindInitiator(tid, opts[3]))
          else if op == "unbind" && mode == "target" && opts[2] == "-I" then Some(UnbindInitiator(tid, opts[3]))
          else None
        else if op == "new" && mode == "account" && opts[0] == "--user" && opts[2] == "--password" then
          Some(NewAccount(opts[1], opts[3]))
        else None
      else if |opts| == 6 then
        if op == "new" && mode == "logicalunit" && opts[0] == "--tid" && opts[2] == "--lun" && opts[4] == "-b"
           && ParseInt(opts[1]).Some? && ParseInt(opts[3]).Some? then
          Some(NewLun(ParseInt(opts[1]).value, ParseInt(opts[3]).value, opts[5]))
        else None
      else None
  }

  /** `Tgtadm + ["--op", op, "--mode", mode] + opts`, with the split a decoder sees. */
  function Command(op: string, mode: string, opts: seq<string>): (argv: seq<string>)
    ensures |argv| == 7 + |opts| && argv[..3] == Tgtadm
    ensures argv[3] == "--op" && argv[4] == op && argv[5] == "--mode" && argv[6] == mode && argv[7..] == opts
  {
    Tgtadm + ["--op", op, "--mode", mode] + opts
  }

  /** The listing command of `query_account` (tgtadm.py:23). */
  function QueryAccountArgv(): (argv: seq<string>)
    ensures DecodeArgv(argv) == Some(ShowAccounts)
  {
    Command("show", "account", [])
  }

  /** The listing command of `query_target` (tgtadm.py:41). */
  function QueryTargetArgv(): (argv: seq<string>)
    ensures DecodeArgv(argv) == Some(ShowTargets)
  {
    Command("show", "target", [])
  }

  /** `new(tid, iqn)` (tgtadm.py:102-105). */
  function New(tid: int, iqn: string): (argv: seq<string>)
    ensures DecodeArgv(argv) == Some(NewTarget(tid, iqn))
  {
    Command("new", "target", ["--tid", IntToString(tid), "-T", iqn])
  }

  /** `delete(tid)` (tgtadm.py:107-110): the target is named by the single option `--tid=<tid>`. */
  function Delete(tid: int): (argv: seq<string>)
    ensures |argv| == 8 && argv[7] == "--tid=" + IntToString(tid)
    ensures DecodeArgv(argv) == Some(DeleteTarget(tid))
  {
    StripPrefixConcat("--tid=", IntToString(tid));
    Command("delete", "target", ["--tid=" + IntToString(tid)])
  }

  /** `add_lun(tid, lun, device)` (tgtadm.py:114-117). */
  function AddLun(tid: int, lun: int, device: string): (argv: seq<string>)
    ensures DecodeArgv(argv) == Some(NewLun(tid, lun, device))
  {
    Command("new", "logicalunit", ["--tid", IntToString(tid), "--lun", IntToString(lun), "-b", device])
  }

  /** `remove_lun(tid, lun)` (tgtadm.py:119-122). */
  function RemoveLun(tid: int, lun: int): (argv: seq<string>)
    ensures DecodeArgv(argv) == Some(DeleteLun(tid, lun))
  {
    Command("delete", "logicalunit", ["--tid", IntToString(tid), "--lun", IntToString(lun)])
  }

  /** `add_initiator(tid, initiator='ALL')` (tgtadm.py:124-127). */
  function AddInitiator(tid: int, initiator: string := "ALL"): (argv: seq<string>)
    ensures DecodeArgv(argv) == Some(BindInitiator(tid, initiator))
  {
    Command("bind", "target", ["--tid", IntToString(tid), "-I", initiator])
  }

  /** `remove_initiator(tid, initiator='ALL')` (tgtadm.py:129-132). */
  function RemoveInitiator(tid: int, initiator: string := "ALL"): (argv: seq<string>)
    ensures DecodeArgv(argv) == Some(UnbindInitiator(tid, initiator))
  {
    Command("unbind", "target", ["--tid", IntToString(tid), "-I", initiator])
  }

  /** `add_user(username, password)` (tgtadm.py:134-137). */
  function AddUser(username: string, password: string): (argv: seq<string>)
    ensures DecodeArgv(argv) == Some(NewAccount(username, password))
  {
    Command("new", "account", ["--user", username, "--password", password])
  }

  /** `remove_user(username)` (tgtadm.py:139-142). */
  function RemoveUser(username: string): (argv: seq<string>)
    ensures DecodeArgv(argv) == Some(DeleteAccount(username))
  {
    Command("delete", "account", ["--user", username])
  }

  /** The vector each request is issued as: the builder of tgtadm.py that makes it. */
  function Argv(req: Request): seq<string> {
    match req
    case ShowAccounts => QueryAccountArgv()
    case ShowTargets => QueryTargetArgv()
    case NewTarget(tid, iqn) => New(tid, iqn)
    case DeleteTarget(tid) => Delete(tid)
    case NewLun(tid, lun, device) => AddLun(tid, lun, device)
    case DeleteLun(tid, lun) => RemoveLun(tid, lun)
    case BindInitiator(tid, initiator) => AddInitiator(tid, initiator)
    case UnbindInitiator(tid, initiator) => RemoveInitiator(tid, initiator)
    case NewAccount(username, password) => AddUser(username, password)
    case DeleteAccount(username) => RemoveUser(username)
  }

  /** Two different requests are never issued as the same vector. */
  lemma ArgvInjective(r1: Request, r2: Request)
    requires Argv(r1) == Argv(r2)
    ensures r1 == r2
  {
    assert DecodeArgv(Argv(r1)) == Some(r1);
    assert DecodeArgv(Argv(r2)) == Some(r2);
  }

  /** The initiator left out is "ALL": binding it opens the target to every initiator. */
  lemma DefaultInitiatorIsAll(tid: int)
    ensures DecodeArgv(AddInitiator(tid)) == Some(BindInitiator(tid, "ALL"))
    ensures DecodeArgv(RemoveInitiator(tid)) == Some(UnbindInitiator(tid, "ALL"))
  {
  }
}
