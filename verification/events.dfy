/**
 The observable effects of a run. Every call the interpreter makes into a
 collaborator (package fetching, the install module, the progress and print
 loggers) is recorded as one event, in call order.
 */
module Events {
  import opened Values

  /** Package metadata as stored in the index (a record of named fields). */
  datatype Meta = Meta(record: map<string, Arg>)

  /** The package index: archive file name to metadata. */
  type Index = map<string, Meta>

  datatype Event =
    | Debug(ins: Instruction)                          // log.debug of the plan entry
    | FetchPkg(fn: string, info: Meta)                 // fetch_pkg(index[fn])
    | InstallExtract(pkgsDir: Arg, dist: Arg)          // install.extract
    | InstallRmExtracted(pkgsDir: Arg, dist: Arg)      // install.rm_extracted
    | InstallRmFetched(pkgsDir: Arg, dist: Arg)        // install.rm_fetched
    | InstallLink(pkgsDir: Arg, prefix: Arg, dist: Arg, linkType: Arg, index: Option<Index>)
    | InstallUnlink(prefix: Arg, dist: Arg)            // install.unlink
    | InstallSymlinkConda(prefix: Arg, rootDir: Arg)   // install.symlink_conda
    | InstallMessages(prefix: Arg)                     // install.messages
    | ProgressStart(maxval: Arg)                       // 'progress.start' logger
    | ProgressUpdate(item: Arg, current: int)          // 'progress.update' logger
    | ProgressStop                                     // 'progress.stop' logger
    | PrintMsg(msg: Arg)                               // 'print' logger

  /** The views of a trace the properties are stated over: the log lines
      announcing plan entries, the progress reports, and the calls the
      handlers make (every event except those the driver loop emits itself). */
  datatype View = Announcements | ProgressReports | Calls

  predicate InView(v: View, e: Event)
  {
    match v
    case Announcements => e.Debug?
    case ProgressReports => e.ProgressStart? || e.ProgressUpdate? || e.ProgressStop?
    case Calls => !e.Debug? && !e.ProgressUpdate? && !e.ProgressStop? && !e.InstallMessages?
  }

  /** The collaborator an event records a call to, by its name in the source. */
  function Callee(e: Event): string
  {
    match e
    case Debug(_) => "log.debug"
    case FetchPkg(_, _) => "fetch_pkg"
    case InstallExtract(_, _) => "install.extract"
    case InstallRmExtracted(_, _) => "install.rm_extracted"
    case InstallRmFetched(_, _) => "install.rm_fetched"
    case InstallLink(_, _, _, _, _) => "install.link"
    case InstallUnlink(_, _) => "install.unlink"
    case InstallSymlinkConda(_, _) => "install.symlink_conda"
    case InstallMessages(_) => "install.messages"
    case ProgressStart(_) => "progress.start"
    case ProgressUpdate(_, _) => "progress.update"
    case ProgressStop => "progress.stop"
    case PrintMsg(_) => "print"
  }

  /** A call that acts on the current installation prefix. */
  predicate UsesPrefix(e: Event, prefix: Arg)
  {
    (e.InstallLink? || e.InstallUnlink? || e.InstallSymlinkConda?) && e.prefix == prefix
  }

  /** The events of `t` in the view `v`, in their original order. */
  function Filter(t: seq<Event>, v: View): (r: seq<Event>)
    ensures |r| <= |t|
  {
    if t == [] then []
    else (if InView(v, t[0]) then [t[0]] else []) + Filter(t[1..], v)
  }

  /** Filtering commutes with concatenation of traces. */
  lemma {:induction false} FilterAppend(a: seq<Event>, b: seq<Event>, v: View)
    ensures Filter(a + b, v) == Filter(a, v) + Filter(b, v)
  {
    if a == [] {
      assert a + b == b;
    } else {
      var h := if InView(v, a[0]) then [a[0]] else [];
      assert (a + b)[0] == a[0];
      assert (a + b)[1..] == a[1..] + b;
      FilterAppend(a[1..], b, v);
      assert Filter(a + b, v) == h + (Filter(a[1..], v) + Filter(b, v));
      assert h + (Filter(a[1..], v) + Filter(b, v)) == (h + Filter(a[1..], v)) + Filter(b, v);
    }
  }

  /** The view of three stretches of a trace followed by one event outside
      the view is the three stretches' views, in order. */
  lemma FilterStretches(a: seq<Event>, b: seq<Event>, c: seq<Event>, m: Event, v: View)
    requires !InView(v, m)
    ensures Filter(a + b + c + [m], v) == Filter(a, v) + Filter(b, v) + Filter(c, v)
  {
    FilterAppend(a, b, v);
    FilterAppend(a + b, c, v);
    FilterAppend(a + b + c, [m], v);
    assert Filter([m], v) == [];
  }

  /** A trace none of whose events is kept filters to nothing, and one all of
      whose events are kept filters to itself. */
  lemma {:induction false} FilterAllOrNone(t: seq<Event>, v: View)
    ensures (forall k :: 0 <= k < |t| ==> !InView(v, t[k])) ==> Filter(t, v) == []
    ensures (forall k :: 0 <= k < |t| ==> InView(v, t[k])) ==> Filter(t, v) == t
  {
    if t != [] {
      FilterAllOrNone(t[1..], v);
      assert forall k :: 1 <= k < |t| ==> t[1..][k - 1] == t[k];
    }
  }

  /** The Debug events a run announces for a sequence of plan entries. */
  function Announced(plan: seq<Instruction>): (r: seq<Event>)
    ensures |r| == |plan|
    ensures forall k :: 0 <= k < |plan| ==> r[k] == Debug(plan[k])
  {
    seq(|plan|, k requires 0 <= k < |plan| => Debug(plan[k]))
  }

  /** A non-empty plan announces its first entry, then the rest. */
  lemma AnnouncedCons(plan: seq<Instruction>)
    requires |plan| > 0
    ensures Announced(plan) == [Debug(plan[0])] + Announced(plan[1..])
  {
    var a, b := Announced(plan), [Debug(plan[0])] + Announced(plan[1..]);
    assert |a| == |b|;
    forall k | 0 <= k < |a| ensures a[k] == b[k] {
      if k > 0 { assert b[k] == Announced(plan[1..])[k - 1]; }
    }
  }

}
