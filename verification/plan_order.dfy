/**
 Properties of the driver loop that concern the plan as a whole: entries run
 in plan order, each once; a run stops at the first failing entry and keeps
 what earlier entries did; PREFIX rebinds the prefix every later handler sees.
 */
module PlanOrder {
  import opened Values
  import opened Opcodes
  import opened Events
  import opened Handlers
  import opened Executor

  /** Running `q` after the outcome `o`, if `o` completed. */
  function Continue(cfg: Config, mode: StopTest, o: Outcome, q: seq<Instruction>): Outcome
  {
    match o
    case Halted(_, _) => o
    case Ran(s, t) => Prepend(t, Loop(cfg, mode, q, s))
  }

  /** Running `p + q` is running `p` and then, if it completed, `q` from the
      state `p` left: the loop has no memory beyond the state it threads. */
  lemma {:induction false} LoopAppend(cfg: Config, mode: StopTest, p: seq<Instruction>, q: seq<Instruction>, st: State)
    ensures Loop(cfg, mode, p + q, st) == Continue(cfg, mode, Loop(cfg, mode, p, st), q)
  {
    if |p| == 0 {
      assert p + q == q;
      PrependNothing(Loop(cfg, mode, q, st));
    } else {
      var s := Step(cfg, mode, st, p[0]);
      assert (p + q)[0] == p[0];
      assert (p + q)[1..] == p[1..] + q;
      if s.Ran? {
        LoopAppend(cfg, mode, p[1..], q, s.st);
        var l1 := Loop(cfg, mode, p[1..], s.st);
        if l1.Ran? {
          PrependTwice(s.trace, l1.trace, Loop(cfg, mode, q, l1.st));
        }
      }
    }
  }

  /** Prepending no events changes nothing. */
  lemma PrependNothing(o: Outcome)
    ensures Prepend([], o) == o
  {
    assert [] + o.trace == o.trace;
  }

  /** Prepending twice is prepending the concatenation. */
  lemma PrependTwice(a: seq<Event>, b: seq<Event>, o: Outcome)
    ensures Prepend(a, Prepend(b, o)) == Prepend(a + b, o)
  {
    ConcatAssoc(a, b, o.trace);
  }

  /** One turn of the loop: the first entry's step, then the rest of the
      plan from the state it left. */
  lemma LoopUnfold(cfg: Config, mode: StopTest, plan: seq<Instruction>, st: State)
    requires |plan| > 0
    ensures var s := Step(cfg, mode, st, plan[0]);
            Loop(cfg, mode, plan, st) == (if s.Halted? then s else Prepend(s.trace, Loop(cfg, mode, plan[1..], s.st)))
  {
  }

  /** One turn of a completed loop: the first entry's step completed, and so
      did the rest of the plan from the state it left. */
  lemma LoopUnfoldRan(cfg: Config, mode: StopTest, plan: seq<Instruction>, st: State)
    requires |plan| > 0 && Loop(cfg, mode, plan, st).Ran?
    ensures var s := Step(cfg, mode, st, plan[0]);
            var rest := Loop(cfg, mode, plan[1..], s.st);
            && s.Ran? && rest.Ran?
            && Loop(cfg, mode, plan, st).st == rest.st
            && Loop(cfg, mode, plan, st).trace == s.trace + rest.trace
  {
  }

  /** A completed run is the completed loop followed by the messages call
      for the prefix the loop finished with. */
  lemma ExecuteUnfold(cfg: Config, mode: StopTest, plan: seq<Instruction>, index: Option<Index>)
    requires Execute(cfg, mode, plan, index).Ran?
    ensures var l := Loop(cfg, mode, plan, Init(cfg, index));
            var r := Execute(cfg, mode, plan, index);
            && l.Ran? && r.st == l.st
            && r.trace == l.trace + [InstallMessages(l.st.prefix)]
  {
  }

  /** A completed loop over `p + q` is a completed loop over `p` followed
      by a completed loop over `q` from the state `p` left. */
  lemma LoopSplitRan(cfg: Config, mode: StopTest, p: seq<Instruction>, q: seq<Instruction>, st: State)
    requires Loop(cfg, mode, p + q, st).Ran?
    ensures Loop(cfg, mode, p, st).Ran?
    ensures var l := Loop(cfg, mode, p, st);
            var r := Loop(cfg, mode, q, l.st);
            var whole := Loop(cfg, mode, p + q, st);
            && r.Ran?
            && whole.st == r.st
            && whole.trace == l.trace + r.trace
  {
    LoopAppend(cfg, mode, p, q, st);
  }

  /** A completed loop over `pre + [ins] + post` is a completed loop over
      `pre`, a completed step for `ins` from where it left off, and a
      completed loop over `post` from there. */
  lemma LoopAround(cfg: Config, mode: StopTest, pre: seq<Instruction>, ins: Instruction,
                   post: seq<Instruction>, st: State)
    requires Loop(cfg, mode, pre + [ins] + post, st).Ran?
    ensures Loop(cfg, mode, pre, st).Ran?
    ensures Step(cfg, mode, Loop(cfg, mode, pre, st).st, ins).Ran?
    ensures var l := Loop(cfg, mode, pre, st);
            var s := Step(cfg, mode, l.st, ins);
            var rest := Loop(cfg, mode, post, s.st);
            var whole := Loop(cfg, mode, pre + [ins] + post, st);
            && rest.Ran?
            && whole.st == rest.st
            && whole.trace == l.trace + s.trace + rest.trace
  {
    ConcatAssoc(pre, [ins], post);
    LoopSplitRan(cfg, mode, pre, [ins] + post, st);
    var l := Loop(cfg, mode, pre, st);
    LoopConsRan(cfg, mode, ins, post, l.st);
    var s := Step(cfg, mode, l.st, ins);
    var rest := Loop(cfg, mode, post, s.st);
    ConcatAssoc(l.trace, s.trace, rest.trace);
  }

  /** A completed loop over `[ins] + post` is a completed step for `ins`
      followed by a completed loop over `post`. */
  lemma LoopConsRan(cfg: Config, mode: StopTest, ins: Instruction, post: seq<Instruction>, st: State)
    requires Loop(cfg, mode, [ins] + post, st).Ran?
    ensures Step(cfg, mode, st, ins).Ran?
    ensures var s := Step(cfg, mode, st, ins);
            var rest := Loop(cfg, mode, post, s.st);
            && rest.Ran?
            && Loop(cfg, mode, [ins] + post, st).st == rest.st
            && Loop(cfg, mode, [ins] + post, st).trace == s.trace + rest.trace
  {
    assert ([ins] + post)[0] == ins && ([ins] + post)[1..] == post;
    LoopUnfoldRan(cfg, mode, [ins] + post, st);
  }

  /** Each step logs its own entry and no other. */
  lemma StepAnnouncesOnce(cfg: Config, mode: StopTest, st: State, ins: Instruction)
    ensures Filter(Step(cfg, mode, st, ins).trace, Announcements) == [Debug(ins)]
  {
    var t := Step(cfg, mode, st, ins).trace;
    FilterAllOrNone(t[1..], Announcements);
    assert forall k :: 0 <= k < |t[1..]| ==> t[1..][k] == t[k + 1];
  }

  /** The loop takes the plan's entries in order, each exactly once: a
      completed run has logged exactly the plan; a failed run has logged a
      non-empty prefix of it, ending with the entry that failed. */
  lemma {:induction false} LoopRunsInPlanOrder(cfg: Config, mode: StopTest, plan: seq<Instruction>, st: State)
    ensures var r := Loop(cfg, mode, plan, st);
            r.Ran? ==> Filter(r.trace, Announcements) == Announced(plan)
    ensures var r := Loop(cfg, mode, plan, st);
            var n := |Filter(r.trace, Announcements)|;
            r.Halted? ==> 1 <= n <= |plan| && Filter(r.trace, Announcements) == Announced(plan[..n])
                          && r.err.name == plan[n - 1].name
  {
    if |plan| > 0 {
      LoopUnfold(cfg, mode, plan, st);
      StepAnnouncesOnce(cfg, mode, st, plan[0]);
      var s := Step(cfg, mode, st, plan[0]);
      if s.Halted? {
        assert Announced(plan[..1]) == [Debug(plan[0])];
      } else {
        LoopRunsInPlanOrder(cfg, mode, plan[1..], s.st);
        AnnouncedAfterStep(plan, s.trace, Loop(cfg, mode, plan[1..], s.st));
      }
    }
  }

  /** An iteration that announced the first entry, followed by an outcome
      that announced the rest of the plan in order (all of it, or up to the
      entry it failed on), announces the whole plan in order. */
  lemma AnnouncedAfterStep(plan: seq<Instruction>, t: seq<Event>, o: Outcome)
    requires |plan| > 0 && Filter(t, Announcements) == [Debug(plan[0])]
    requires o.Ran? ==> Filter(o.trace, Announcements) == Announced(plan[1..])
    requires var n := |Filter(o.trace, Announcements)|;
             o.Halted? ==> 1 <= n <= |plan| - 1 && Filter(o.trace, Announcements) == Announced(plan[1..][..n])
                           && o.err.name == plan[1..][n - 1].name
    ensures var r := Prepend(t, o);
            r.Ran? ==> Filter(r.trace, Announcements) == Announced(plan)
    ensures var r := Prepend(t, o);
            var n := |Filter(r.trace, Announcements)|;
            r.Halted? ==> 1 <= n <= |plan| && Filter(r.trace, Announcements) == Announced(plan[..n])
                          && r.err.name == plan[n - 1].name
  {
    FilterAppend(t, o.trace, Announcements);
    if o.Ran? {
      AnnouncedCons(plan);
    } else {
      var m := |Filter(o.trace, Announcements)|;
      assert plan[..m + 1][1..] == plan[1..][..m];
      AnnouncedCons(plan[..m + 1]);
    }
  }

  /** `execute_instructions` handles the plan's entries in order, each exactly
      once, and stops at the first entry that raises, naming it. */
  lemma ExecuteRunsInPlanOrder(cfg: Config, mode: StopTest, plan: seq<Instruction>, index: Option<Index>)
    ensures var r := Execute(cfg, mode, plan, index);
            r.Ran? ==> Filter(r.trace, Announcements) == Announced(plan)
    ensures var r := Execute(cfg, mode, plan, index);
            var n := |Filter(r.trace, Announcements)|;
            r.Halted? ==> 1 <= n <= |plan| && Filter(r.trace, Announcements) == Announced(plan[..n])
                          && r.err.name == plan[n - 1].name
  {
    var l := Loop(cfg, mode, plan, Init(cfg, index));
    LoopRunsInPlanOrder(cfg, mode, plan, Init(cfg, index));
    if l.Ran? {
      FilterAppend(l.trace, [InstallMessages(l.st.prefix)], Announcements);
    }
  }

  /** An entry whose opcode has no handler raises `InvalidInstruction` naming
      it. Everything the earlier entries did stays in the trace, the bad entry
      is only logged, nothing after it runs and no messages are shown. */
  lemma UnknownOpcodeHalts(cfg: Config, mode: StopTest, pre: seq<Instruction>, ins: Instruction,
                           post: seq<Instruction>, index: Option<Index>)
    requires Lookup(ins.name).None?
    requires Loop(cfg, mode, pre, Init(cfg, index)).Ran?
    ensures Execute(cfg, mode, pre + [ins] + post, index)
            == Halted(InvalidInstruction(ins.name), Loop(cfg, mode, pre, Init(cfg, index)).trace + [Debug(ins)])
  {
    ConcatAssoc(pre, [ins], post);
    LoopAppend(cfg, mode, pre, [ins] + post, Init(cfg, index));
    assert ([ins] + post)[0] == ins;
  }

  /** The prefix in force after a sequence of entries, read backwards: the
      argument of the last PREFIX entry, or `p0` if there is none. */
  function LatestPrefix(p0: Arg, plan: seq<Instruction>): Arg
  {
    if plan == [] then p0
    else
      var last := plan[|plan| - 1];
      if last.name == "PREFIX" && |last.args| >= 1 then last.args[0]
      else LatestPrefix(p0, plan[..|plan| - 1])
  }

  /** PREFIX rebinds the prefix and changes nothing else: no counter, no
      collaborator call, only the log line. */
  lemma PrefixOnlyRebinds(cfg: Config, mode: StopTest, st: State, p: Arg)
    ensures Step(cfg, mode, st, Instruction("PREFIX", [p]))
            == Ran(st.(prefix := p), [Debug(Instruction("PREFIX", [p]))])
  {
    HandlerNeverInProgressCmds(Prefix);
  }

  /** After a completed stretch of the loop the prefix is the one the last
      PREFIX entry set (or the one the stretch started with). */
  lemma {:induction false} LoopPrefixIsLatest(cfg: Config, mode: StopTest, plan: seq<Instruction>, st: State)
    requires Loop(cfg, mode, plan, st).Ran?
    ensures Loop(cfg, mode, plan, st).st.prefix == LatestPrefix(st.prefix, plan)
  {
    if |plan| > 0 {
      LoopUnfoldRan(cfg, mode, plan, st);
      var s := Step(cfg, mode, st, plan[0]);
      LoopPrefixIsLatest(cfg, mode, plan[1..], s.st);
      LatestPrefixCons(st.prefix, plan);
    }
  }

  /** Read forwards, the prefix in force after a plan is the one in force
      after its first entry, carried through the rest. */
  lemma {:induction false} LatestPrefixCons(p0: Arg, plan: seq<Instruction>)
    requires |plan| > 0
    ensures LatestPrefix(p0, plan)
            == LatestPrefix(if plan[0].name == "PREFIX" && |plan[0].args| >= 1 then plan[0].args[0] else p0, plan[1..])
  {
    var n := |plan|;
    if n > 1 {
      var last := plan[n - 1];
      assert plan[1..][n - 2] == last;
      if !(last.name == "PREFIX" && |last.args| >= 1) {
        LatestPrefixCons(p0, plan[..n - 1]);
        assert plan[..n - 1][1..] == plan[1..][..n - 2];
        assert plan[..n - 1][0] == plan[0];
      }
    }
  }

  /** The argument an entry passes to a call that acts on the prefix: the
      package for LINK and UNLINK, the root environment for SYMLINK_CONDA. */
  function PrefixCallArg(e: Event): Arg
    requires e.InstallLink? || e.InstallUnlink? || e.InstallSymlinkConda?
  {
    if e.InstallSymlinkConda? then e.rootDir else e.dist
  }

  /** A handler that acts on the prefix, run from a state, calls its
      collaborator with that state's prefix and its own first argument. */
  lemma StepUsesPrefix(cfg: Config, mode: StopTest, st: State, ins: Instruction)
    requires ins.name in {"LINK", "UNLINK", "SYMLINK_CONDA"}
    requires Step(cfg, mode, st, ins).Ran?
    ensures |ins.args| >= 1
    ensures exists e :: e in Step(cfg, mode, st, ins).trace && UsesPrefix(e, st.prefix) && PrefixCallArg(e) == ins.args[0]
  {
    var op := Lookup(ins.name).value;
    assert op in {Link, Unlink, SymlinkConda};
    var counting := Counting(st, ins);
    var st1 := if counting then st.(i := Some(st.i.value + 1)) else st;
    var h := Handle(cfg, op, st1, ins.args);
    assert h.Returned?;
    HandlerPassesArgument(cfg, op, st1, ins.args);
    assert h.events[0] in Step(cfg, mode, st, ins).trace;
  }

  /** Every LINK, UNLINK and SYMLINK_CONDA entry of a completed run acts on
      the prefix set by the most recent PREFIX entry before it, or on the
      root prefix if there is none: the entry's own stretch of the trace
      holds a call with that prefix and the entry's argument. */
  lemma PrefixUsersSeeLatestPrefix(cfg: Config, mode: StopTest, pre: seq<Instruction>, ins: Instruction,
                                   post: seq<Instruction>, index: Option<Index>)
    requires ins.name in {"LINK", "UNLINK", "SYMLINK_CONDA"}
    requires Execute(cfg, mode, pre + [ins] + post, index).Ran?
    ensures Loop(cfg, mode, pre, Init(cfg, index)).Ran?
    ensures Step(cfg, mode, Loop(cfg, mode, pre, Init(cfg, index)).st, ins).Ran? && |ins.args| >= 1
    ensures var l := Loop(cfg, mode, pre, Init(cfg, index));
            var s := Step(cfg, mode, l.st, ins);
            var t := Execute(cfg, mode, pre + [ins] + post, index).trace;
            && |l.trace| + |s.trace| <= |t|
            && t[|l.trace|..|l.trace| + |s.trace|] == s.trace
            && exists e :: e in s.trace && UsesPrefix(e, LatestPrefix(Str(cfg.rootDir), pre)) && PrefixCallArg(e) == ins.args[0]
  {
    var st0 := Init(cfg, index);
    ExecuteUnfold(cfg, mode, pre + [ins] + post, index);
    LoopAround(cfg, mode, pre, ins, post, st0);
    var l1 := Loop(cfg, mode, pre, st0);
    LoopPrefixIsLatest(cfg, mode, pre, st0);
    var stepped := Step(cfg, mode, l1.st, ins);
    StepUsesPrefix(cfg, mode, l1.st, ins);
    var whole := Execute(cfg, mode, pre + [ins] + post, index).trace;
    var rest := Loop(cfg, mode, post, stepped.st).trace;
    var m := InstallMessages(Loop(cfg, mode, pre + [ins] + post, st0).st.prefix);
    assert whole == l1.trace + stepped.trace + rest + [m];
    ConcatAssoc(l1.trace + stepped.trace, rest, [m]);
    SliceMiddle(l1.trace, stepped.trace, rest + [m]);
  }

  /** The middle of three concatenated traces is found at its offset. */
  lemma SliceMiddle(a: seq<Event>, b: seq<Event>, c: seq<Event>)
    ensures (a + b + c)[|a|..|a| + |b|] == b
  {
    assert forall k :: 0 <= k < |b| ==> (a + b + c)[|a| + k] == b[k];
  }

  /** A completed run shows the install messages for the prefix set by the
      plan's last PREFIX entry, or for the root prefix. */
  lemma MessagesForLatestPrefix(cfg: Config, mode: StopTest, plan: seq<Instruction>, index: Option<Index>)
    requires Execute(cfg, mode, plan, index).Ran?
    ensures var t := Execute(cfg, mode, plan, index).trace;
            t[|t| - 1] == InstallMessages(LatestPrefix(Str(cfg.rootDir), plan))
  {
    LoopPrefixIsLatest(cfg, mode, plan, Init(cfg, index));
  }

  /** An entry's handler run on its own, from a state with the given prefix
      and index and no counter; Raised when the opcode has no handler. */
  function HandlerAlone(cfg: Config, ins: Instruction, prefix: Arg, index: Option<Index>): Handled
  {
    match Lookup(ins.name)
    case None => Raised
    case Some(op) => Handle(cfg, op, State(prefix, index, None, None), ins.args)
  }

  /** Reference for the calls a run makes: the plan's handlers run back to
      back on their own, each once and in plan order, threading only the
      prefix, up to the first entry that has no handler or raises. */
  function HandlerCalls(cfg: Config, plan: seq<Instruction>, prefix: Arg, index: Option<Index>): seq<Event>
    decreases |plan|
  {
    if plan == [] then []
    else
      match HandlerAlone(cfg, plan[0], prefix, index)
      case Raised => []
      case Returned(st, calls) => calls + HandlerCalls(cfg, plan[1..], st.prefix, index)
  }

  /** An iteration completes exactly when its handler, run on its own,
      returns; its calls are then exactly that handler's calls, once, and a
      halted iteration made no call at all. */
  lemma StepCalls(cfg: Config, mode: StopTest, st: State, ins: Instruction)
    ensures var r, h := Step(cfg, mode, st, ins), HandlerAlone(cfg, ins, st.prefix, st.index);
            && (r.Ran? <==> h.Returned?)
            && (r.Halted? ==> Filter(r.trace, Calls) == [])
            && (r.Ran? ==> Filter(r.trace, Calls) == h.events && r.st.prefix == h.st.prefix && r.st.index == st.index)
  {
    StepHalts(cfg, mode, st, ins);
    if Lookup(ins.name).Some? {
      var op := Lookup(ins.name).value;
      HandleIgnoresCounter(cfg, op, st, ins.args, None, None);
      assert st.(i := None, maxval := None) == State(st.prefix, st.index, None, None);
    }
    if Step(cfg, mode, st, ins).Halted? {
      HaltedStepCallsNothing(cfg, mode, st, ins);
    } else {
      RanStepCalls(cfg, mode, st, ins);
    }
  }

  /** A halted iteration made no call. */
  lemma HaltedStepCallsNothing(cfg: Config, mode: StopTest, st: State, ins: Instruction)
    requires Step(cfg, mode, st, ins).Halted?
    ensures Filter(Step(cfg, mode, st, ins).trace, Calls) == []
  {
    FilterAllOrNone(Step(cfg, mode, st, ins).trace, Calls);
  }

  /** A completed iteration's calls are its handler's calls, from any
      counter. */
  lemma RanStepCalls(cfg: Config, mode: StopTest, st: State, ins: Instruction)
    requires Step(cfg, mode, st, ins).Ran?
    ensures Lookup(ins.name).Some?
    ensures var h := Handle(cfg, Lookup(ins.name).value, State(st.prefix, st.index, None, None), ins.args);
            var r := Step(cfg, mode, st, ins);
            && h.Returned? && Filter(r.trace, Calls) == h.events && r.st.prefix == h.st.prefix
  {
    StepShape(cfg, mode, st, ins);
    var op := Lookup(ins.name).value;
    var st1 := Bumped(st, ins);
    HandleIgnoresCounter(cfg, op, st1, ins.args, None, None);
    assert st1.(i := None, maxval := None) == State(st.prefix, st.index, None, None);
    var h1 := Handle(cfg, op, st1, ins.args);
    FilterIterationCalls(ins, UpdateReport(st, ins), h1.events, Step(cfg, mode, st, ins).trace);
  }

  /** The calls in an iteration's trace are the handler's calls: the log
      line, the progress update and the stop report are not calls. */
  lemma FilterIterationCalls(ins: Instruction, upd: seq<Event>, calls: seq<Event>, t: seq<Event>)
    requires forall k :: 0 <= k < |upd| ==> upd[k].ProgressUpdate?
    requires forall e :: e in calls ==> InView(Calls, e)
    requires t == [Debug(ins)] + upd + calls || t == [Debug(ins)] + upd + calls + [ProgressStop]
    ensures Filter(t, Calls) == calls
  {
    var logged := [Debug(ins)] + upd;
    FilterAllOrNone(logged, Calls);
    FilterAllOrNone(calls, Calls);
    FilterAppend(logged, calls, Calls);
    if t != logged + calls {
      FilterAppend(logged + calls, [ProgressStop], Calls);
    }
  }

  /** The calls of the loop, in order, are the reference's: each entry's
      handler calls appear exactly once, in plan order, and the loop stops
      calling at the first entry that has no handler or raises. */
  lemma {:induction false} LoopMakesHandlerCalls(cfg: Config, mode: StopTest, plan: seq<Instruction>, st: State)
    ensures Filter(Loop(cfg, mode, plan, st).trace, Calls) == HandlerCalls(cfg, plan, st.prefix, st.index)
  {
    if |plan| > 0 {
      LoopUnfold(cfg, mode, plan, st);
      StepCalls(cfg, mode, st, plan[0]);
      var s := Step(cfg, mode, st, plan[0]);
      if s.Ran? {
        LoopMakesHandlerCalls(cfg, mode, plan[1..], s.st);
        FilterAppend(s.trace, Loop(cfg, mode, plan[1..], s.st).trace, Calls);
      }
    }
  }

  /** `execute_instructions` makes exactly the reference's calls, from the
      root prefix: every handler it reaches runs once, in plan order. */
  lemma ExecuteMakesHandlerCalls(cfg: Config, mode: StopTest, plan: seq<Instruction>, index: Option<Index>)
    ensures Filter(Execute(cfg, mode, plan, index).trace, Calls) == HandlerCalls(cfg, plan, Str(cfg.rootDir), index)
  {
    var l := Loop(cfg, mode, plan, Init(cfg, index));
    LoopMakesHandlerCalls(cfg, mode, plan, Init(cfg, index));
    if l.Ran? {
      FilterAppend(l.trace, [InstallMessages(l.st.prefix)], Calls);
    }
  }

  /** An entry whose handler raises ends the run, naming it. Everything the
      earlier entries did stays in the trace, the entry leaves only its log
      line and progress update, nothing after it runs and no messages are
      shown. */
  lemma HandlerFailureHalts(cfg: Config, mode: StopTest, pre: seq<Instruction>, ins: Instruction,
                            post: seq<Instruction>, index: Option<Index>)
    requires Loop(cfg, mode, pre, Init(cfg, index)).Ran?
    requires Lookup(ins.name).Some?
    requires Handle(cfg, Lookup(ins.name).value, Loop(cfg, mode, pre, Init(cfg, index)).st, ins.args).Raised?
    ensures var l := Loop(cfg, mode, pre, Init(cfg, index));
            Execute(cfg, mode, pre + [ins] + post, index)
            == Halted(if Counting(l.st, ins) && |ins.args| == 0 then MalformedArgs(ins.name) else HandlerFailure(ins.name),
                      l.trace + [Debug(ins)] + UpdateReport(l.st, ins))
  {
    var l := Loop(cfg, mode, pre, Init(cfg, index));
    ConcatAssoc(pre, [ins], post);
    LoopAppend(cfg, mode, pre, [ins] + post, Init(cfg, index));
    StepHalts(cfg, mode, l.st, ins);
    assert ([ins] + post)[0] == ins;
    ConcatAssoc(l.trace, [Debug(ins)], UpdateReport(l.st, ins));
  }

}
