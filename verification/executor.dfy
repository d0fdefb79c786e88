/**
 The driver loop `execute_instructions`: for each plan entry in order it logs
 the entry, advances the progress counter for progress-eligible opcodes,
 resolves the handler, runs it and applies the stop test; after the last
 entry it asks the install module to show its pending messages for the final
 prefix.
 */
module Executor {
  import opened Values
  import opened Opcodes
  import opened Events
  import opened Handlers

  /** Which operand the stop test compares with `progress_cmds`. `AsWritten`
      is the source: it tests the handler function `cmd`, so the test can
      never succeed. `Intended` tests the opcode name `instruction`, the
      progress protocol the loop was meant to follow. */
  datatype StopTest = AsWritten | Intended

  /** The exceptions that end a run. Each names the offending opcode. */
  datatype Error =
    | InvalidInstruction(name: string)   // no handler for the opcode
    | MalformedArgs(name: string)        // `args[0]` of an empty tuple at the progress update
    | HandlerFailure(name: string)       // the handler raised

  /** The result of running one entry, a plan prefix, or a whole plan: either
      it completed with a state, or it raised; both carry every event emitted
      up to that point (nothing is rolled back). */
  datatype Outcome = Ran(st: State, trace: seq<Event>) | Halted(err: Error, trace: seq<Event>)

  /** The state a run starts from: the root prefix, the given index, and no
      progress counter (the `maxval` key is absent), so no stop test can
      fire before a PROGRESS entry. */
  function Init(cfg: Config, index: Option<Index>): (r: State)
    ensures r.prefix == Str(cfg.rootDir) && r.index == index
    ensures r.i.None? && r.maxval.None?
    ensures forall mode: StopTest, name: string, op: Op :: !StopFires(mode, name, op, r)
  {
    State(Str(cfg.rootDir), index, None, None)
  }

  /** The object the stop test looks up in `progress_cmds`. As written it is
      never a member; as intended it is one exactly for the
      progress-eligible opcode names. */
  function StopOperand(mode: StopTest, name: string, op: Op): (r: PyValue)
    ensures InProgressCmds(r) <==> mode == Intended && name in ProgressCmds
  {
    match mode
    case AsWritten => PyHandler(op)
    case Intended => PyStr(name)
  }

  /** `state['i'] is not None and <operand> in progress_cmds and
      state['maxval'] == state['i']`. */
  predicate StopFires(mode: StopTest, name: string, op: Op, st: State)
    ensures StopFires(mode, name, op, st) <==>
              mode == Intended && name in ProgressCmds && st.i.Some? && st.maxval == Some(Int(st.i.value))
  {
    st.i.Some? && InProgressCmds(StopOperand(mode, name, op)) && st.maxval.Some? && st.maxval.value == Int(st.i.value)
  }

  /** Whether an entry advances the counter: one is running and the opcode
      is progress-eligible. */
  predicate Counting(st: State, ins: Instruction)
  {
    st.i.Some? && ins.name in ProgressCmds
  }

  /** The state the handler sees: the counter bumped if the entry counts. */
  function Bumped(st: State, ins: Instruction): State
  {
    if Counting(st, ins) then st.(i := Some(st.i.value + 1)) else st
  }

  /** The progress update an entry reports before its handler runs. */
  function UpdateReport(st: State, ins: Instruction): seq<Event>
  {
    if Counting(st, ins) && |ins.args| >= 1 then [ProgressUpdate(ins.args[0], st.i.value + 1)] else []
  }

  /** One iteration of the loop body. */
  function Step(cfg: Config, mode: StopTest, st: State, ins: Instruction): (r: Outcome)
    ensures |r.trace| >= 1 && r.trace[0] == Debug(ins)
    ensures forall k :: 1 <= k < |r.trace| ==> !r.trace[k].Debug? && !r.trace[k].InstallMessages?
    ensures Lookup(ins.name).None? ==> r == Halted(InvalidInstruction(ins.name), [Debug(ins)])
    ensures r.Halted? ==> r.err.name == ins.name
    ensures r.Ran? ==> |ins.args| >= 1 && r.st.index == st.index
    ensures r.Ran? ==> r.st.prefix == (if ins.name == "PREFIX" then ins.args[0] else st.prefix)
  {
    var counting := Counting(st, ins);
    if counting && |ins.args| == 0 then Halted(MalformedArgs(ins.name), [Debug(ins)])
    else
      var st1 := Bumped(st, ins);
      var logged := [Debug(ins)] + UpdateReport(st, ins);
      match Lookup(ins.name)
      case None => Halted(InvalidInstruction(ins.name), logged)
      case Some(op) =>
        match Handle(cfg, op, st1, ins.args)
        case Raised => Halted(HandlerFailure(ins.name), logged)
        case Returned(st2, calls) =>
          if StopFires(mode, ins.name, op, st2) then Ran(st2.(i := None), logged + calls + [ProgressStop])
          else Ran(st2, logged + calls)
  }

  /** An iteration halts exactly when the opcode has no handler or the
      handler raises, and a raising handler leaves only the log line and the
      progress update behind. Whether a handler raises does not depend on the
      counter, so it is stated for the state the iteration starts from. */
  lemma StepHalts(cfg: Config, mode: StopTest, st: State, ins: Instruction)
    ensures Step(cfg, mode, st, ins).Halted? <==>
              Lookup(ins.name).None? || Handle(cfg, Lookup(ins.name).value, st, ins.args).Raised?
    ensures Lookup(ins.name).Some? && Handle(cfg, Lookup(ins.name).value, st, ins.args).Raised? ==>
              Step(cfg, mode, st, ins)
              == Halted(if Counting(st, ins) && |ins.args| == 0 then MalformedArgs(ins.name) else HandlerFailure(ins.name),
                        [Debug(ins)] + UpdateReport(st, ins))
  {
    if Lookup(ins.name).Some? {
      var op := Lookup(ins.name).value;
      HandleIgnoresCounter(cfg, op, st, ins.args, Bumped(st, ins).i, st.maxval);
    }
  }

  /** A completed iteration's trace is its log line, its progress update,
      the calls of its handler exactly once, and possibly the stop report. */
  lemma StepShape(cfg: Config, mode: StopTest, st: State, ins: Instruction)
    requires Step(cfg, mode, st, ins).Ran?
    ensures Lookup(ins.name).Some?
    ensures var h := Handle(cfg, Lookup(ins.name).value, Bumped(st, ins), ins.args);
            var t := Step(cfg, mode, st, ins).trace;
            && h.Returned?
            && (t == [Debug(ins)] + UpdateReport(st, ins) + h.events
                || t == [Debug(ins)] + UpdateReport(st, ins) + h.events + [ProgressStop])
  {
  }

  /** The outcome `o` with the events `t` emitted before it. */
  function Prepend(t: seq<Event>, o: Outcome): (r: Outcome)
    ensures r.trace == t + o.trace
    ensures r.Ran? <==> o.Ran?
    ensures r.Ran? ==> r.st == o.st
    ensures r.Halted? ==> r.err == o.err
  {
    match o
    case Ran(s, t2) => Ran(s, t + t2)
    case Halted(e, t2) => Halted(e, t + t2)
  }

  /** The loop over the plan, without the final messages call. A completed
      run has logged every entry, none of which had an empty argument tuple;
      the install module's messages are never shown from inside the loop. */
  function Loop(cfg: Config, mode: StopTest, plan: seq<Instruction>, st: State): (r: Outcome)
    ensures plan == [] ==> r == Ran(st, [])
    ensures forall e :: e in r.trace ==> !e.InstallMessages?
    ensures r.Ran? ==> forall k :: 0 <= k < |plan| ==> |plan[k].args| >= 1
    ensures r.Ran? ==> r.st.index == st.index
    decreases |plan|
  {
    if |plan| == 0 then Ran(st, [])
    else
      var s := Step(cfg, mode, st, plan[0]);
      if s.Halted? then s else Prepend(s.trace, Loop(cfg, mode, plan[1..], s.st))
  }

  /** `execute_instructions(plan, index)`. A completed run ends with exactly
      one messages call, for the prefix the run finished with; a failed run
      never reaches it. An empty plan only shows the messages for the root
      prefix. */
  function Execute(cfg: Config, mode: StopTest, plan: seq<Instruction>, index: Option<Index>): (r: Outcome)
    ensures plan == [] ==> r == Ran(State(Str(cfg.rootDir), index, None, None), [InstallMessages(Str(cfg.rootDir))])
    ensures r.Ran? ==> |r.trace| >= 1 && r.trace[|r.trace| - 1] == InstallMessages(r.st.prefix)
    ensures r.Ran? ==> forall k :: 0 <= k < |r.trace| - 1 ==> !r.trace[k].InstallMessages?
    ensures r.Halted? ==> forall e :: e in r.trace ==> !e.InstallMessages?
    ensures r.Ran? ==> r.st.index == index
    ensures r.Ran? ==> forall k :: 0 <= k < |plan| ==> |plan[k].args| >= 1
  {
    match Loop(cfg, mode, plan, Init(cfg, index))
    case Halted(e, t) => Halted(e, t)
    case Ran(s, t) =>
      assert plan == [] ==> t + [InstallMessages(s.prefix)] == [InstallMessages(Str(cfg.rootDir))];
      Ran(s, t + [InstallMessages(s.prefix)])
  }

}
