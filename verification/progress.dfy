/**
 The progress sub-protocol of the driver loop. PROGRESS(n) (re)starts the
 counter at 0; while a counter is active every progress-eligible entry bumps
 it by one and reports the entry's first argument with the new count. The
 stop test after the handler exists to switch the counter off once it
 reaches its maximum; as written it can never fire, so a started counter
 runs on past its maximum.
 */
module ProgressProtocol {
  import opened Values
  import opened Opcodes
  import opened Events
  import opened Handlers
  import opened Executor
  import opened PlanOrder

  /** Number of progress-eligible entries in a plan. */
  function Eligible(plan: seq<Instruction>): nat
  {
    if plan == [] then 0
    else (if plan[0].name in ProgressCmds then 1 else 0) + Eligible(plan[1..])
  }

  /** No entry restarts the counter. */
  predicate NoRestart(plan: seq<Instruction>)
  {
    forall k :: 0 <= k < |plan| ==> plan[k].name != "PROGRESS"
  }

  /** Every entry has at least one argument, as every handler demands. */
  predicate HasArgs(plan: seq<Instruction>)
  {
    forall k :: 0 <= k < |plan| ==> |plan[k].args| >= 1
  }

  /** The update reports a counter started at `c` produces for `plan`: one per
      progress-eligible entry, labelled with its first argument, counting
      c + 1, c + 2, ... */
  function ExpectedUpdates(plan: seq<Instruction>, c: int): (r: seq<Event>)
    requires HasArgs(plan)
    ensures |r| == Eligible(plan)
  {
    if plan == [] then []
    else
      assert forall k :: 0 <= k < |plan[1..]| ==> plan[1..][k] == plan[k + 1];
      if plan[0].name in ProgressCmds then [ProgressUpdate(plan[0].args[0], c + 1)] + ExpectedUpdates(plan[1..], c + 1)
      else ExpectedUpdates(plan[1..], c)
  }

  /** The expected reports are updates numbered consecutively from c + 1. */
  lemma {:induction false} ExpectedUpdatesNumbered(plan: seq<Instruction>, c: int)
    requires HasArgs(plan)
    ensures forall k :: 0 <= k < |ExpectedUpdates(plan, c)| ==>
              ExpectedUpdates(plan, c)[k].ProgressUpdate? && ExpectedUpdates(plan, c)[k].current == c + k + 1
  {
    if plan != [] {
      assert forall k :: 0 <= k < |plan[1..]| ==> plan[1..][k] == plan[k + 1];
      if plan[0].name in ProgressCmds {
        ExpectedUpdatesNumbered(plan[1..], c + 1);
        var r, r1 := ExpectedUpdates(plan, c), ExpectedUpdates(plan[1..], c + 1);
        assert r == [ProgressUpdate(plan[0].args[0], c + 1)] + r1;
        assert forall k :: 1 <= k < |r| ==> r[k] == r1[k - 1];
      } else {
        ExpectedUpdatesNumbered(plan[1..], c);
        assert ExpectedUpdates(plan, c) == ExpectedUpdates(plan[1..], c);
      }
    }
  }

  /** How the plan-level notions split off the first entry. */
  lemma PlanTail(plan: seq<Instruction>, c: int)
    requires |plan| > 0 && NoRestart(plan) && HasArgs(plan)
    ensures NoRestart(plan[1..]) && HasArgs(plan[1..])
    ensures Eligible(plan) == (if plan[0].name in ProgressCmds then 1 else 0) + Eligible(plan[1..])
    ensures ExpectedUpdates(plan, c)
            == if plan[0].name in ProgressCmds
               then [ProgressUpdate(plan[0].args[0], c + 1)] + ExpectedUpdates(plan[1..], c + 1)
               else ExpectedUpdates(plan[1..], c)
  {
    assert forall k :: 0 <= k < |plan[1..]| ==> plan[1..][k] == plan[k + 1];
  }

  /** The counter value `c + 1 .. c + e` at which a stop test comparing with
      `maxval` could succeed. */
  predicate StopsWithin(maxval: Option<Arg>, c: int, e: nat)
  {
    maxval.Some? && maxval.value.Int? && c < maxval.value.n <= c + e
  }

  /** PROGRESS(n) starts the counter at 0 with maximum n and reports the
      start, whatever the counter was doing before. */
  lemma ProgressRestarts(cfg: Config, mode: StopTest, st: State, n: Arg)
    ensures Step(cfg, mode, st, Instruction("PROGRESS", [n]))
            == Ran(st.(i := Some(0), maxval := Some(n)), [Debug(Instruction("PROGRESS", [n])), ProgressStart(n)])
    ensures Filter(Step(cfg, mode, st, Instruction("PROGRESS", [n])).trace, ProgressReports) == [ProgressStart(n)]
  {
    HandlerNeverInProgressCmds(Progress);
    var t := [Debug(Instruction("PROGRESS", [n])), ProgressStart(n)];
    assert t[1..] == [ProgressStart(n)] && t[1..][1..] == [];
  }

  /** Before any PROGRESS, an entry other than PROGRESS reports no progress
      and leaves the counter off. */
  lemma StepWhileIdle(cfg: Config, mode: StopTest, st: State, ins: Instruction)
    requires st.i.None? && ins.name != "PROGRESS"
    ensures var r := Step(cfg, mode, st, ins);
            Filter(r.trace, ProgressReports) == []
    ensures var r := Step(cfg, mode, st, ins);
            r.Ran? ==> r.st.i.None? && r.st.maxval == st.maxval
  {
    var r := Step(cfg, mode, st, ins);
    FilterAllOrNone(r.trace, ProgressReports);
  }

  /** A progress-eligible entry, run with the counter at `c`, reports
      (first argument, c + 1) and hands its handler a state whose counter is
      c + 1. */
  lemma StepBumps(cfg: Config, mode: StopTest, st: State, ins: Instruction, c: int)
    requires st.i.Some? && st.i.value == c && ins.name in ProgressCmds
    requires Step(cfg, mode, st, ins).Ran?
    ensures |ins.args| >= 1
    ensures var r := Step(cfg, mode, st, ins);
            var op := Lookup(ins.name).value;
            var h := Handle(cfg, op, st.(i := Some(c + 1)), ins.args);
            && h.Returned? && h.st == st.(i := Some(c + 1))
            && Filter(h.events, ProgressReports) == []
            && r.trace[..2] == [Debug(ins), ProgressUpdate(ins.args[0], c + 1)]
            && (StopFires(mode, ins.name, op, h.st) ==> r == Ran(h.st.(i := None), r.trace[..2] + h.events + [ProgressStop]))
            && (!StopFires(mode, ins.name, op, h.st) ==> r == Ran(h.st, r.trace[..2] + h.events))
  {
    var op := Lookup(ins.name).value;
    var h := Handle(cfg, op, st.(i := Some(c + 1)), ins.args);
    FilterAllOrNone(h.events, ProgressReports);
  }

  /** With the counter at `c`, a progress-eligible entry that completes bumps
      the counter to c + 1 and reports (first argument, c + 1); only the
      intended stop test, when c + 1 reaches maxval, then switches the counter
      off and reports a stop. */
  lemma StepCountsEligible(cfg: Config, mode: StopTest, st: State, ins: Instruction, c: int)
    requires st.i.Some? && st.i.value == c && ins.name in ProgressCmds
    requires Step(cfg, mode, st, ins).Ran?
    ensures |ins.args| >= 1
    ensures var r := Step(cfg, mode, st, ins);
            var stops := mode == Intended && st.maxval.Some? && st.maxval.value == Int(c + 1);
            && r.st.maxval == st.maxval
            && (stops ==> r.st.i.None? && Filter(r.trace, ProgressReports) == [ProgressUpdate(ins.args[0], c + 1), ProgressStop])
            && (!stops ==> r.st.i.Some? && r.st.i.value == c + 1 && Filter(r.trace, ProgressReports) == [ProgressUpdate(ins.args[0], c + 1)])
  {
    StepBumps(cfg, mode, st, ins, c);
    var r := Step(cfg, mode, st, ins);
    var op := Lookup(ins.name).value;
    HandlerNeverInProgressCmds(op);
    var h := Handle(cfg, op, st.(i := Some(c + 1)), ins.args);
    var update := ProgressUpdate(ins.args[0], c + 1);
    if StopFires(mode, ins.name, op, h.st) {
      UpdateThenCalls(ins, update, h.events, [ProgressStop]);
    } else {
      UpdateThenCalls(ins, update, h.events, []);
    }
  }

  /** The progress reports of a step's trace that logs the entry, reports an
      update, makes calls that report nothing, and may end with `tail`. */
  lemma UpdateThenCalls(ins: Instruction, update: Event, calls: seq<Event>, tail: seq<Event>)
    requires update.ProgressUpdate? && Filter(calls, ProgressReports) == []
    requires tail == [] || tail == [ProgressStop]
    ensures Filter([Debug(ins), update] + calls + tail, ProgressReports) == [update] + tail
  {
    assert [Debug(ins), update] == [Debug(ins)] + [update];
    FilterAppend([Debug(ins)], [update], ProgressReports);
    FilterAppend([Debug(ins), update], calls, ProgressReports);
    FilterAppend([Debug(ins), update] + calls, tail, ProgressReports);
    FilterAllOrNone(tail, ProgressReports);
  }

  /** With the counter at `c`, an entry that is neither progress-eligible nor
      PROGRESS leaves the counter and maxval alone and reports no progress. */
  lemma StepSkipsIneligible(cfg: Config, mode: StopTest, st: State, ins: Instruction, c: int)
    requires st.i.Some? && st.i.value == c && ins.name !in ProgressCmds && ins.name != "PROGRESS"
    requires Step(cfg, mode, st, ins).Ran?
    ensures var r := Step(cfg, mode, st, ins);
            r.st.i.Some? && r.st.i.value == c && r.st.maxval == st.maxval && Filter(r.trace, ProgressReports) == []
  {
    var r := Step(cfg, mode, st, ins);
    var op := Lookup(ins.name).value;
    HandlerNeverInProgressCmds(op);
    FilterAllOrNone(r.trace, ProgressReports);
  }

  /** As written, one step never reports a stop. */
  lemma StepNeverStops(cfg: Config, st: State, ins: Instruction)
    ensures ProgressStop !in Step(cfg, AsWritten, st, ins).trace
  {
    match Lookup(ins.name)
    case None =>
    case Some(op) => HandlerNeverInProgressCmds(op);
  }

  /** As written, the loop never reports a stop, from any state and for any
      plan, whether it completes or raises. */
  lemma {:induction false} NoStopAsWritten(cfg: Config, plan: seq<Instruction>, st: State)
    ensures ProgressStop !in Loop(cfg, AsWritten, plan, st).trace
  {
    if |plan| > 0 {
      StepNeverStops(cfg, st, plan[0]);
      LoopUnfold(cfg, AsWritten, plan, st);
      var s := Step(cfg, AsWritten, st, plan[0]);
      if s.Ran? {
        NoStopAsWritten(cfg, plan[1..], s.st);
      }
    }
  }

  /** Before any PROGRESS, the loop reports no progress and the counter stays
      off. */
  lemma {:induction false} IdleRun(cfg: Config, mode: StopTest, plan: seq<Instruction>, st: State)
    requires st.i.None? && NoRestart(plan)
    requires Loop(cfg, mode, plan, st).Ran?
    ensures var r := Loop(cfg, mode, plan, st);
            Filter(r.trace, ProgressReports) == [] && r.st.i.None?
  {
    if |plan| > 0 {
      LoopUnfold(cfg, mode, plan, st);
      StepWhileIdle(cfg, mode, st, plan[0]);
      var s := Step(cfg, mode, st, plan[0]);
      assert forall k :: 0 <= k < |plan[1..]| ==> plan[1..][k] == plan[k + 1];
      IdleRun(cfg, mode, plan[1..], s.st);
      FilterAppend(s.trace, Loop(cfg, mode, plan[1..], s.st).trace, ProgressReports);
    }
  }

  /** With the counter at `c` and no restart, a completed stretch reports
      exactly one update per progress-eligible entry, numbered c + 1, c + 2,
      ..., and leaves the counter at c plus their number, provided the stop
      test does not fire: as written it never does; as intended it does not
      while maxval lies outside the range counted. */
  lemma {:induction false} CountingRun(cfg: Config, mode: StopTest, plan: seq<Instruction>, st: State, c: int)
    requires st.i.Some? && st.i.value == c && NoRestart(plan) && HasArgs(plan)
    requires mode == AsWritten || !StopsWithin(st.maxval, c, Eligible(plan))
    requires Loop(cfg, mode, plan, st).Ran?
    ensures var r := Loop(cfg, mode, plan, st);
            && Filter(r.trace, ProgressReports) == ExpectedUpdates(plan, c)
            && r.st.i.Some? && r.st.i.value == c + Eligible(plan)
            && r.st.maxval == st.maxval
  {
    if |plan| > 0 {
      LoopUnfold(cfg, mode, plan, st);
      if plan[0].name in ProgressCmds {
        StepCountsEligible(cfg, mode, st, plan[0], c);
      } else {
        StepSkipsIneligible(cfg, mode, st, plan[0], c);
      }
      var s := Step(cfg, mode, st, plan[0]);
      PlanTail(plan, c);
      var c1 := if plan[0].name in ProgressCmds then c + 1 else c;
      CountingRun(cfg, mode, plan[1..], s.st, c1);
      FilterAppend(s.trace, Loop(cfg, mode, plan[1..], s.st).trace, ProgressReports);
    }
  }

  /** With the intended stop test, a counter at `c` whose maximum is reached
      by exactly the plan's progress-eligible entries reports every update
      and then a single stop right after the last one, and ends switched off. */
  lemma {:induction false} StopAtMaxIntended(cfg: Config, plan: seq<Instruction>, st: State, c: int)
    requires st.i.Some? && st.i.value == c && NoRestart(plan) && HasArgs(plan) && Eligible(plan) >= 1
    requires st.maxval.Some? && st.maxval.value == Int(c + Eligible(plan))
    requires Loop(cfg, Intended, plan, st).Ran?
    ensures var r := Loop(cfg, Intended, plan, st);
            Filter(r.trace, ProgressReports) == ExpectedUpdates(plan, c) + [ProgressStop] && r.st.i.None?
    decreases |plan|, 1
  {
    if plan[0].name !in ProgressCmds {
      StopAfterIneligible(cfg, plan, st, c);
    } else if Eligible(plan) == 1 {
      StopAtLastEligible(cfg, plan, st, c);
    } else {
      StopAfterEligible(cfg, plan, st, c);
    }
  }

  /** The case of StopAtMaxIntended where the first entry is the last
      progress-eligible one: it reports its update and the stop, and the
      rest runs idle. */
  lemma StopAtLastEligible(cfg: Config, plan: seq<Instruction>, st: State, c: int)
    requires st.i.Some? && st.i.value == c && NoRestart(plan) && HasArgs(plan) && Eligible(plan) >= 1
    requires st.maxval.Some? && st.maxval.value == Int(c + Eligible(plan))
    requires Loop(cfg, Intended, plan, st).Ran?
    requires plan[0].name in ProgressCmds && Eligible(plan) == 1
    ensures var r := Loop(cfg, Intended, plan, st);
            Filter(r.trace, ProgressReports) == ExpectedUpdates(plan, c) + [ProgressStop] && r.st.i.None?
  {
    LoopUnfoldRan(cfg, Intended, plan, st);
    var s := Step(cfg, Intended, st, plan[0]);
    var rest := Loop(cfg, Intended, plan[1..], s.st);
    PlanTail(plan, c);
    StepCountsEligible(cfg, Intended, st, plan[0], c);
    IdleRun(cfg, Intended, plan[1..], s.st);
    FilterAppend(s.trace, rest.trace, ProgressReports);
    var u := ProgressUpdate(plan[0].args[0], c + 1);
    assert ExpectedUpdates(plan[1..], c + 1) == [];
    assert [u, ProgressStop] + [] == [u] + [] + [ProgressStop];
  }

  /** The case of StopAtMaxIntended where the first entry is
      progress-eligible but not the last: it reports its update only. */
  lemma StopAfterEligible(cfg: Config, plan: seq<Instruction>, st: State, c: int)
    requires st.i.Some? && st.i.value == c && NoRestart(plan) && HasArgs(plan) && Eligible(plan) >= 1
    requires st.maxval.Some? && st.maxval.value == Int(c + Eligible(plan))
    requires Loop(cfg, Intended, plan, st).Ran?
    requires plan[0].name in ProgressCmds && Eligible(plan) > 1
    ensures var r := Loop(cfg, Intended, plan, st);
            Filter(r.trace, ProgressReports) == ExpectedUpdates(plan, c) + [ProgressStop] && r.st.i.None?
    decreases |plan|, 0
  {
    LoopUnfoldRan(cfg, Intended, plan, st);
    var s := Step(cfg, Intended, st, plan[0]);
    var rest := Loop(cfg, Intended, plan[1..], s.st);
    PlanTail(plan, c);
    StepCountsEligible(cfg, Intended, st, plan[0], c);
    StopAtMaxIntended(cfg, plan[1..], s.st, c + 1);
    FilterAppend(s.trace, rest.trace, ProgressReports);
    var u := ProgressUpdate(plan[0].args[0], c + 1);
    var tail := ExpectedUpdates(plan[1..], c + 1);
    ConcatAssoc([u], tail, [ProgressStop]);
  }

  /** The case of StopAtMaxIntended where the first entry is not
      progress-eligible: it reports nothing. */
  lemma StopAfterIneligible(cfg: Config, plan: seq<Instruction>, st: State, c: int)
    requires st.i.Some? && st.i.value == c && NoRestart(plan) && HasArgs(plan) && Eligible(plan) >= 1
    requires st.maxval.Some? && st.maxval.value == Int(c + Eligible(plan))
    requires Loop(cfg, Intended, plan, st).Ran?
    requires plan[0].name !in ProgressCmds
    ensures var r := Loop(cfg, Intended, plan, st);
            Filter(r.trace, ProgressReports) == ExpectedUpdates(plan, c) + [ProgressStop] && r.st.i.None?
    decreases |plan|, 0
  {
    LoopUnfoldRan(cfg, Intended, plan, st);
    var s := Step(cfg, Intended, st, plan[0]);
    var rest := Loop(cfg, Intended, plan[1..], s.st);
    PlanTail(plan, c);
    StepSkipsIneligible(cfg, Intended, st, plan[0], c);
    StopAtMaxIntended(cfg, plan[1..], s.st, c);
    FilterAppend(s.trace, rest.trace, ProgressReports);
    assert [] + (ExpectedUpdates(plan[1..], c) + [ProgressStop]) == ExpectedUpdates(plan[1..], c) + [ProgressStop];
  }

  /** The run as written: after the plan's PROGRESS(n) entry, with no later
      restart, the updates number 1, 2, ... up to the count of
      progress-eligible entries, however that compares with n, no stop is
      reported and the counter is never switched off. */
  lemma ProgressCountsPastMax(cfg: Config, pre: seq<Instruction>, n: Arg, post: seq<Instruction>,
                              index: Option<Index>)
    requires NoRestart(post) && HasArgs(post)
    requires Execute(cfg, AsWritten, pre + [Instruction("PROGRESS", [n])] + post, index).Ran?
    ensures var r := Execute(cfg, AsWritten, pre + [Instruction("PROGRESS", [n])] + post, index);
            var l := Loop(cfg, AsWritten, pre, Init(cfg, index));
            && l.Ran?
            && Filter(r.trace, ProgressReports) == Filter(l.trace, ProgressReports) + [ProgressStart(n)] + ExpectedUpdates(post, 0)
            && ProgressStop !in r.trace
            && r.st.i.Some? && r.st.i.value == Eligible(post)
            && r.st.maxval == Some(n)
  {
    var plan := pre + [Instruction("PROGRESS", [n])] + post;
    ExecuteAroundProgress(cfg, AsWritten, pre, n, post, index);
    var l := Loop(cfg, AsWritten, pre, Init(cfg, index));
    CountingRun(cfg, AsWritten, post, l.st.(i := Some(0), maxval := Some(n)), 0);
    NoStopExecuteAsWritten(cfg, plan, index);
  }

  /** A completed run through a PROGRESS(n) entry reports what the entries
      before it reported, then the start, then what the rest of the plan
      reports from a counter restarted at 0 with maximum n, and ends in the
      state the rest leaves. */
  lemma ExecuteAroundProgress(cfg: Config, mode: StopTest, pre: seq<Instruction>, n: Arg, rest: seq<Instruction>,
                              index: Option<Index>)
    requires Execute(cfg, mode, pre + [Instruction("PROGRESS", [n])] + rest, index).Ran?
    ensures Loop(cfg, mode, pre, Init(cfg, index)).Ran?
    ensures var l := Loop(cfg, mode, pre, Init(cfg, index));
            var tail := Loop(cfg, mode, rest, l.st.(i := Some(0), maxval := Some(n)));
            var r := Execute(cfg, mode, pre + [Instruction("PROGRESS", [n])] + rest, index);
            && tail.Ran? && r.st == tail.st
            && Filter(r.trace, ProgressReports)
               == Filter(l.trace, ProgressReports) + [ProgressStart(n)] + Filter(tail.trace, ProgressReports)
  {
    var ins := Instruction("PROGRESS", [n]);
    var st0 := Init(cfg, index);
    ExecuteUnfold(cfg, mode, pre + [ins] + rest, index);
    LoopAround(cfg, mode, pre, ins, rest, st0);
    var l := Loop(cfg, mode, pre, st0);
    ProgressRestarts(cfg, mode, l.st, n);
    var s := Step(cfg, mode, l.st, ins);
    var tail := Loop(cfg, mode, rest, s.st);
    FilterStretches(l.trace, s.trace, tail.trace, InstallMessages(tail.st.prefix), ProgressReports);
  }

  /** As written, no run ever reports a stop, whatever the plan and whether
      it completes or raises. */
  lemma NoStopExecuteAsWritten(cfg: Config, plan: seq<Instruction>, index: Option<Index>)
    ensures ProgressStop !in Execute(cfg, AsWritten, plan, index).trace
  {
    NoStopAsWritten(cfg, plan, Init(cfg, index));
  }

  /** The run as intended: after the plan's PROGRESS(m) entry, where the
      next stretch `mid` holds exactly m progress-eligible entries and
      neither it nor what follows restarts the counter, the updates number
      1 to m, a single stop follows, nothing more is reported, and the
      counter ends switched off. */
  lemma ProgressStopsAtMaxIntended(cfg: Config, pre: seq<Instruction>, mid: seq<Instruction>,
                                   post: seq<Instruction>, index: Option<Index>)
    requires NoRestart(mid) && NoRestart(post) && HasArgs(mid) && Eligible(mid) >= 1
    requires Execute(cfg, Intended, pre + [Instruction("PROGRESS", [Int(Eligible(mid))])] + (mid + post), index).Ran?
    ensures var r := Execute(cfg, Intended, pre + [Instruction("PROGRESS", [Int(Eligible(mid))])] + (mid + post), index);
            var l := Loop(cfg, Intended, pre, Init(cfg, index));
            && l.Ran?
            && Filter(r.trace, ProgressReports)
               == Filter(l.trace, ProgressReports) + [ProgressStart(Int(Eligible(mid)))] + (ExpectedUpdates(mid, 0) + [ProgressStop])
            && r.st.i.None?
  {
    var n := Int(Eligible(mid));
    ExecuteAroundProgress(cfg, Intended, pre, n, mid + post, index);
    var l := Loop(cfg, Intended, pre, Init(cfg, index));
    StopThenIdleIntended(cfg, mid, post, l.st.(i := Some(0), maxval := Some(n)));
  }

  /** With the intended stop test, a counter just started with maximum m
      reports the m updates of `mid`, a stop, and nothing for `post`. */
  lemma StopThenIdleIntended(cfg: Config, mid: seq<Instruction>, post: seq<Instruction>, st: State)
    requires NoRestart(mid) && NoRestart(post) && HasArgs(mid) && Eligible(mid) >= 1
    requires st.i.Some? && st.i.value == 0
    requires st.maxval.Some? && st.maxval.value == Int(Eligible(mid))
    requires Loop(cfg, Intended, mid + post, st).Ran?
    ensures var r := Loop(cfg, Intended, mid + post, st);
            Filter(r.trace, ProgressReports) == ExpectedUpdates(mid, 0) + [ProgressStop] && r.st.i.None?
  {
    LoopSplitRan(cfg, Intended, mid, post, st);
    var lm := Loop(cfg, Intended, mid, st);
    StopAtMaxIntended(cfg, mid, st, 0);
    var lp := Loop(cfg, Intended, post, lm.st);
    IdleRun(cfg, Intended, post, lm.st);
    FilterAppend(lm.trace, lp.trace, ProgressReports);
  }

  /** Every plan of single-argument EXTRACT entries completes, from any
      state and under either stop test. */
  lemma {:induction false} ExtractsComplete(cfg: Config, mode: StopTest, plan: seq<Instruction>, st: State)
    requires forall k :: 0 <= k < |plan| ==> plan[k].name == "EXTRACT" && |plan[k].args| == 1
    ensures Loop(cfg, mode, plan, st).Ran?
  {
    if |plan| > 0 {
      assert plan[0] == Instruction("EXTRACT", [plan[0].args[0]]);
      ExtractCompletes(cfg, mode, st, plan[0].args[0]);
      LoopUnfold(cfg, mode, plan, st);
      var s := Step(cfg, mode, st, plan[0]);
      assert forall k :: 0 <= k < |plan[1..]| ==> plan[1..][k] == plan[k + 1];
      ExtractsComplete(cfg, mode, plan[1..], s.st);
    }
  }

  /** A concrete plan on which the stop test as written and as intended
      differ: PROGRESS(1) followed by two EXTRACTs. */
  function TwoExtracts(): seq<Instruction>
  {
    [Instruction("PROGRESS", [Int(1)]), Instruction("EXTRACT", [Str("a")]), Instruction("EXTRACT", [Str("b")])]
  }

  /** An EXTRACT entry with one argument completes from any state. */
  lemma ExtractCompletes(cfg: Config, mode: StopTest, st: State, x: Arg)
    ensures Step(cfg, mode, st, Instruction("EXTRACT", [x])).Ran?
  {
    LookupName(Extract);
  }

  /** On PROGRESS(1), EXTRACT a, EXTRACT b the source reports updates 1 and 2,
      no stop, and ends with the counter at 2, past its maximum of 1. */
  lemma TwoExtractsAsWritten(cfg: Config)
    ensures var w := Execute(cfg, AsWritten, TwoExtracts(), None);
            && w.Ran?
            && Filter(w.trace, ProgressReports)
               == [ProgressStart(Int(1)), ProgressUpdate(Str("a"), 1), ProgressUpdate(Str("b"), 2)]
            && ProgressStop !in w.trace
            && w.st.i.Some? && w.st.i.value == 2
  {
    var plan := TwoExtracts();
    var pe, e1, e2 := plan[0], plan[1], plan[2];
    assert plan == [] + [pe] + [e1, e2];
    TwoExtractsComplete(cfg, AsWritten);
    TwoExtractsCount(e1, e2);
    ProgressCountsPastMax(cfg, [], Int(1), [e1, e2], None);
    assert Filter(Loop(cfg, AsWritten, [], Init(cfg, None)).trace, ProgressReports) == [];
  }

  /** The two EXTRACT entries of the plan, counted from 0, report 1 and 2. */
  lemma TwoExtractsCount(e1: Instruction, e2: Instruction)
    requires e1 == Instruction("EXTRACT", [Str("a")]) && e2 == Instruction("EXTRACT", [Str("b")])
    ensures NoRestart([e1, e2]) && HasArgs([e1, e2]) && Eligible([e1, e2]) == 2
    ensures ExpectedUpdates([e1, e2], 0) == [ProgressUpdate(Str("a"), 1), ProgressUpdate(Str("b"), 2)]
  {
    assert NoRestart([e1, e2]) && HasArgs([e1, e2]);
    PlanTail([e1, e2], 0);
    PlanTail([e2], 1);
  }

  /** On the same plan the intended protocol reports update 1, then a stop,
      then nothing more, and ends with the counter off. */
  lemma TwoExtractsIntended(cfg: Config)
    ensures var f := Execute(cfg, Intended, TwoExtracts(), None);
            && f.Ran?
            && Filter(f.trace, ProgressReports) == [ProgressStart(Int(1)), ProgressUpdate(Str("a"), 1), ProgressStop]
            && f.st.i.None?
  {
    var plan := TwoExtracts();
    var pe, e1, e2 := plan[0], plan[1], plan[2];
    TwoExtractsComplete(cfg, Intended);
    FirstExtractCounts(e1, e2);
    assert plan == [] + [Instruction("PROGRESS", [Int(Eligible([e1]))])] + ([e1] + [e2]);
    ProgressStopsAtMaxIntended(cfg, [], [e1], [e2], None);
    assert Filter(Loop(cfg, Intended, [], Init(cfg, None)).trace, ProgressReports) == [];
  }

  /** Split after the first EXTRACT, the plan's stretch holds one
      progress-eligible entry, reporting 1. */
  lemma FirstExtractCounts(e1: Instruction, e2: Instruction)
    requires e1 == Instruction("EXTRACT", [Str("a")]) && e2 == Instruction("EXTRACT", [Str("b")])
    ensures NoRestart([e1]) && NoRestart([e2]) && HasArgs([e1]) && Eligible([e1]) == 1
    ensures ExpectedUpdates([e1], 0) == [ProgressUpdate(Str("a"), 1)]
  {
    assert NoRestart([e1]) && NoRestart([e2]) && HasArgs([e1]);
    PlanTail([e1], 0);
  }

  /** The plan PROGRESS(1), EXTRACT a, EXTRACT b completes under either
      stop test. */
  lemma TwoExtractsComplete(cfg: Config, mode: StopTest)
    ensures Execute(cfg, mode, TwoExtracts(), None).Ran?
  {
    var plan := TwoExtracts();
    var st0 := Init(cfg, None);
    ProgressRestarts(cfg, mode, st0, Int(1));
    LoopUnfold(cfg, mode, plan, st0);
    ExtractsComplete(cfg, mode, plan[1..], st0.(i := Some(0), maxval := Some(Int(1))));
  }

}
