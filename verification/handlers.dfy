/**
 The execution state and the ten instruction handlers. A handler receives the
 state and the unpacked arguments of its plan entry; it may rebind state keys
 and it calls at most one collaborator, which is recorded as an event.
 */
module Handlers {
  import opened Values
  import opened Opcodes
  import opened Events

  /** Configuration read by the handlers: `config.root_dir`,
      `config.pkgs_dirs[0]` and `install.LINK_HARD`. Python binds the LINK
      defaults when the module is imported; one value per run models that. */
  datatype Config = Config(rootDir: string, pkgsDir0: string, linkHard: Arg)

  /** The `state` dictionary. `maxval` is None while the key is absent, i.e.
      before the first PROGRESS instruction. */
  datatype State = State(prefix: Arg, index: Option<Index>, i: Option<int>, maxval: Option<Arg>)

  /** What `cmd(state, *args)` does: it returns with a new state and the calls
      it made, or it raises (wrong number of arguments, an argument of the
      wrong type, no index, no index entry). */
  datatype Handled = Returned(st: State, events: seq<Event>) | Raised

  const ArchiveSuffix: string := ".tar.bz2"

  /** `fetch(index, dist)`: asserts an index is present, forms the archive
      name `dist + '.tar.bz2'` and fetches the index entry stored under it.
      It fails when there is no index, when `dist` is not a string, or when
      the index has no such entry. */
  function FetchArchive(index: Option<Index>, dist: Arg): (r: Option<Event>)
    ensures r.Some? <==> index.Some? && dist.Str? && dist.s + ArchiveSuffix in index.value
    ensures r.Some? ==> r.value.FetchPkg?
                        && |r.value.fn| == |dist.s| + |ArchiveSuffix|
                        && r.value.fn[..|dist.s|] == dist.s
                        && r.value.fn[|dist.s|..] == ArchiveSuffix
                        && r.value.fn in index.value
                        && r.value.info == index.value[r.value.fn]
  {
    match index
    case None => None
    case Some(m) =>
      if !dist.Str? then None
      else
        var fn := dist.s + ArchiveSuffix;
        if fn in m then Some(FetchPkg(fn, m[fn])) else None
  }

  /** `_split_linkarg(dist, pkgs_dir=config.pkgs_dirs[0], linktype=install.LINK_HARD)`:
      binds one to three positional arguments, filling the missing ones with
      the defaults. Any other number of arguments is a TypeError. */
  function SplitLinkArgs(cfg: Config, args: seq<Arg>): (r: Option<(Arg, Arg, Arg)>)
    ensures r.Some? <==> 1 <= |args| <= 3
    ensures r.Some? ==> r.value.0 == args[0]
    ensures r.Some? ==> r.value.1 == (if |args| >= 2 then args[1] else Str(cfg.pkgsDir0))
    ensures r.Some? ==> r.value.2 == (if |args| == 3 then args[2] else cfg.linkHard)
  {
    match |args|
    case 1 => Some((args[0], Str(cfg.pkgsDir0), cfg.linkHard))
    case 2 => Some((args[0], args[1], cfg.linkHard))
    case 3 => Some((args[0], args[1], args[2]))
    case _ => None
  }

  /** `split_linkarg(args)`: a value that is not a list or tuple is treated as
      a one-element tuple, then split as above. */
  function SplitLinkArg(cfg: Config, a: Arg): (r: Option<(Arg, Arg, Arg)>)
    ensures !a.Tuple? ==> r == Some((a, Str(cfg.pkgsDir0), cfg.linkHard))
    ensures a.Tuple? ==> (r.Some? <==> 1 <= |a.items| <= 3)
    ensures a.Tuple? && r.Some? ==> r.value.0 == a.items[0]
    ensures r.Some? ==> r.value.1 == (if a.Tuple? && |a.items| >= 2 then a.items[1] else Str(cfg.pkgsDir0))
    ensures r.Some? ==> r.value.2 == (if a.Tuple? && |a.items| == 3 then a.items[2] else cfg.linkHard)
  {
    var args := if a.Tuple? then a.items else [a];
    SplitLinkArgs(cfg, args)
  }

  /** The arities of the handlers' Python signatures: LINK takes a dist and
      two optional arguments, every other handler exactly one argument. */
  predicate ArityOk(op: Op, n: nat)
    ensures n == 1 ==> ArityOk(op, n)
    ensures op == Link && 1 <= n <= 3 ==> ArityOk(op, n)
    ensures ArityOk(op, n) ==> 1 <= n <= 3
    ensures ArityOk(op, n) && n != 1 ==> op == Link
  {
    if op == Link then 1 <= n <= 3 else n == 1
  }

  /** The state a returning handler leaves: PREFIX rebinds the prefix,
      PROGRESS restarts the counter at 0 and records the maximum, and every
      other handler leaves the state as it found it. */
  function HandlerState(op: Op, st: State, args: seq<Arg>): State
    requires |args| >= 1
  {
    match op
    case Prefix => st.(prefix := args[0])
    case Progress => st.(i := Some(0), maxval := Some(args[0]))
    case _ => st
  }

  /** The collaborator each handler calls, by its name in the source; PREFIX
      calls none. */
  function Collaborator(op: Op): Option<string>
  {
    match op
    case Prefix => None
    case Print => Some("print")
    case Fetch => Some("fetch_pkg")
    case Progress => Some("progress.start")
    case Extract => Some("install.extract")
    case RmExtracted => Some("install.rm_extracted")
    case RmFetched => Some("install.rm_fetched")
    case Link => Some("install.link")
    case Unlink => Some("install.unlink")
    case SymlinkConda => Some("install.symlink_conda")
  }

  /** `cmd(state, *args)` for the handler `op`. */
  function Handle(cfg: Config, op: Op, st: State, args: seq<Arg>): (r: Handled)
    ensures r.Raised? <==> !ArityOk(op, |args|) || (op == Fetch && FetchArchive(st.index, args[0]).None?)
    ensures r.Returned? ==> r.st == HandlerState(op, st, args)
    ensures r.Returned? ==> |r.events| == (if op == Prefix then 0 else 1)
    ensures r.Returned? ==> forall e :: e in r.events ==> InView(Calls, e)
    ensures r.Returned? && op in {Link, Unlink, SymlinkConda} ==> UsesPrefix(r.events[0], st.prefix)
    ensures r.Returned? && op == Progress ==> r.events == [ProgressStart(args[0])]
    ensures r.Returned? && op != Progress ==> forall e :: e in r.events ==> !InView(ProgressReports, e)
  {
    if !ArityOk(op, |args|) then Raised
    else
      match op
      case Prefix => Returned(st.(prefix := args[0]), [])
      case Print => Returned(st, [PrintMsg(args[0])])
      case Fetch =>
        (match FetchArchive(st.index, args[0])
         case None => Raised
         case Some(e) => Returned(st, [e]))
      case Progress => Returned(st.(i := Some(0), maxval := Some(args[0])), [ProgressStart(args[0])])
      case Extract => Returned(st, [InstallExtract(Str(cfg.pkgsDir0), args[0])])
      case RmExtracted => Returned(st, [InstallRmExtracted(Str(cfg.pkgsDir0), args[0])])
      case RmFetched => Returned(st, [InstallRmFetched(Str(cfg.pkgsDir0), args[0])])
      case Link =>
        var (dist, pkgsDir, lt) := SplitLinkArgs(cfg, args).value;
        Returned(st, [InstallLink(pkgsDir, st.prefix, dist, lt, st.index)])
      case Unlink => Returned(st, [InstallUnlink(st.prefix, args[0])])
      case SymlinkConda => Returned(st, [InstallSymlinkConda(st.prefix, args[0])])
  }

  /** Each handler calls its own collaborator: the one call a returning
      handler makes is to the collaborator registered for it, and PREFIX,
      which has none, makes no call. */
  lemma HandleCallsCollaborator(cfg: Config, op: Op, st: State, args: seq<Arg>)
    requires Handle(cfg, op, st, args).Returned?
    ensures var h := Handle(cfg, op, st, args);
            && (Collaborator(op).None? <==> h.events == [])
            && (Collaborator(op).Some? ==> |h.events| == 1 && Callee(h.events[0]) == Collaborator(op).value)
  {
  }

  /** The call each handler makes, argument by argument: the package
      handlers name their argument as the package and work in the first
      package cache, UNLINK and SYMLINK_CONDA pass the current prefix, LINK
      passes the prefix and the index with its bound arguments, PRINT prints
      its argument, PROGRESS reports it as the maximum, and FETCH fetches the
      index entry of its archive. */
  lemma HandlerPassesArgument(cfg: Config, op: Op, st: State, args: seq<Arg>)
    requires Handle(cfg, op, st, args).Returned? && op != Prefix
    ensures var e := Handle(cfg, op, st, args).events[0];
            && (op == Extract ==> e == InstallExtract(Str(cfg.pkgsDir0), args[0]))
            && (op == RmExtracted ==> e == InstallRmExtracted(Str(cfg.pkgsDir0), args[0]))
            && (op == RmFetched ==> e == InstallRmFetched(Str(cfg.pkgsDir0), args[0]))
            && (op == Link ==> e.InstallLink? && e.dist == args[0] && e.prefix == st.prefix && e.index == st.index)
            && (op == Unlink ==> e == InstallUnlink(st.prefix, args[0]))
            && (op == SymlinkConda ==> e == InstallSymlinkConda(st.prefix, args[0]))
            && (op == Print ==> e == PrintMsg(args[0]))
            && (op == Progress ==> e == ProgressStart(args[0]))
            && (op == Fetch ==> e == FetchArchive(st.index, args[0]).value)
  {
  }

  /** Handlers never read the progress counter or the maximum: run from two
      states that differ only there, a handler raises in both or in neither,
      makes the same calls, and leaves the same prefix and index. */
  lemma HandleIgnoresCounter(cfg: Config, op: Op, st: State, args: seq<Arg>, i: Option<int>, maxval: Option<Arg>)
    ensures var h, h' := Handle(cfg, op, st, args), Handle(cfg, op, st.(i := i, maxval := maxval), args);
            && (h.Raised? <==> h'.Raised?)
            && (h.Returned? ==> h.events == h'.events && h.st.prefix == h'.st.prefix && h.st.index == h'.st.index)
  {
  }

  /** LINK binds its arguments exactly as `split_linkarg` splits the same
      tuple: the handler and the helper agree on the defaults. */
  lemma LinkAgreesWithSplitLinkArg(cfg: Config, st: State, args: seq<Arg>)
    requires Handle(cfg, Link, st, args).Returned?
    ensures SplitLinkArg(cfg, Tuple(args)).Some?
    ensures var (d, p, lt) := SplitLinkArg(cfg, Tuple(args)).value;
            Handle(cfg, Link, st, args).events == [InstallLink(p, st.prefix, d, lt, st.index)]
  {
  }

  /** LINK accepts its optional package cache and link type: called with
      one, two or three arguments it returns, linking the dist from the
      given cache (or `pkgs_dirs[0]`) with the given link type (or
      `LINK_HARD`) into the current prefix. */
  lemma LinkBindsOptionalArgs(cfg: Config, st: State, d: Arg, p: Arg, lt: Arg)
    ensures Handle(cfg, Link, st, [d, p, lt]) == Returned(st, [InstallLink(p, st.prefix, d, lt, st.index)])
    ensures Handle(cfg, Link, st, [d, p]) == Returned(st, [InstallLink(p, st.prefix, d, cfg.linkHard, st.index)])
    ensures Handle(cfg, Link, st, [d]) == Returned(st, [InstallLink(Str(cfg.pkgsDir0), st.prefix, d, cfg.linkHard, st.index)])
  {
  }

  /** Splitting is idempotent: re-splitting the triple it produced gives the
      same triple back. */
  lemma SplitLinkArgRoundTrip(cfg: Config, a: Arg)
    requires SplitLinkArg(cfg, a).Some?
    ensures var (d, p, lt) := SplitLinkArg(cfg, a).value;
            SplitLinkArg(cfg, Tuple([d, p, lt])) == Some((d, p, lt))
  {
  }

}
