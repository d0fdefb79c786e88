/**
 The opcode registry of the instruction interpreter: the ten known opcodes,
 the table that resolves an opcode name to its handler, and the set of
 opcodes that advance the progress counter.
 */
module Opcodes {
  import opened Values

  /** The handlers of the dispatch table, one per known opcode. */
  datatype Op =
    | Fetch | Extract | Unlink | Link | RmExtracted | RmFetched
    | Prefix | Print | Progress | SymlinkConda

  /** The opcode string under which a handler is registered. */
  function Name(op: Op): string
  {
    match op
    case Fetch => "FETCH"
    case Extract => "EXTRACT"
    case Unlink => "UNLINK"
    case Link => "LINK"
    case RmExtracted => "RM_EXTRACTED"
    case RmFetched => "RM_FETCHED"
    case Prefix => "PREFIX"
    case Print => "PRINT"
    case Progress => "PROGRESS"
    case SymlinkConda => "SYMLINK_CONDA"
  }

  /** `commands`: the dispatch table from opcode name to handler. */
  const Commands: map<string, Op> := map[
    "PREFIX" := Prefix,
    "PRINT" := Print,
    "FETCH" := Fetch,
    "PROGRESS" := Progress,
    "EXTRACT" := Extract,
    "RM_EXTRACTED" := RmExtracted,
    "RM_FETCHED" := RmFetched,
    "LINK" := Link,
    "UNLINK" := Unlink,
    "SYMLINK_CONDA" := SymlinkConda
  ]

  /** `commands.get(instruction)`: the handler registered for a name, if any.
      A name resolves exactly when it is the name of some handler, and then to
      that handler. */
  function Lookup(name: string): (r: Option<Op>)
    ensures r.Some? ==> Name(r.value) == name
  {
    if name in Commands then Some(Commands[name]) else None
  }

  /** Every handler is found again under its own name: the table is total on
      the registry and no two handlers share a name. */
  lemma LookupName(op: Op)
    ensures Lookup(Name(op)) == Some(op)
  {
  }

  /** A name has no handler exactly when no handler is registered under it. */
  lemma LookupMissing(name: string)
    ensures Lookup(name).None? <==> forall op: Op :: Name(op) != name
  {
    if Lookup(name).None? {
      forall op: Op ensures Name(op) != name {
        LookupName(op);
      }
    }
  }

  /** `progress_cmds`: the opcode names whose execution advances the counter. */
  const ProgressCmds: set<string> := {"EXTRACT", "RM_EXTRACTED", "LINK", "UNLINK"}

  /** The progress-eligible set and the dispatch table do not drift apart:
      every progress-eligible name has a handler, and PROGRESS itself is not
      progress-eligible. */
  lemma ProgressCmdsAreCommands(name: string)
    ensures name in ProgressCmds ==> Lookup(name).Some?
    ensures name in ProgressCmds <==>
              Lookup(name).Some? && Lookup(name).value in {Extract, RmExtracted, Link, Unlink}
  {
  }

  /** A Python object that the stop test may compare against `progress_cmds`:
      either a string or a handler function. */
  datatype PyValue = PyStr(s: string) | PyHandler(op: Op)

  /** Python's `v in progress_cmds`: set membership by equality, and a function
      object is never equal to a string. */
  predicate InProgressCmds(v: PyValue)
  {
    v.PyStr? && v.s in ProgressCmds
  }

  /** Testing a handler function for membership in `progress_cmds` is false for
      every handler, while testing its name is true exactly for the four
      progress-eligible opcodes. */
  lemma HandlerNeverInProgressCmds(op: Op)
    ensures !InProgressCmds(PyHandler(op))
    ensures InProgressCmds(PyStr(Name(op))) <==> op in {Extract, RmExtracted, Link, Unlink}
  {
  }

}
