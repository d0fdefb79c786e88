/**
 Values that flow through an installation plan: the arguments of an
 instruction, and the instruction itself.
 */
module Values {

  datatype Option<+T> = None | Some(value: T)

  /** A Python value passed as an instruction argument: a string, an integer,
      or a list/tuple of further values. */
  datatype Arg = Str(s: string) | Int(n: int) | Tuple(items: seq<Arg>)

  /** One plan entry `(instruction, args)`: the opcode name as written in the
      plan (possibly one no handler knows) and the positional arguments. */
  datatype Instruction = Instruction(name: string, args: seq<Arg>)

  /** Concatenation regroups freely. */
  lemma ConcatAssoc<T>(a: seq<T>, b: seq<T>, c: seq<T>)
    ensures a + b + c == a + (b + c)
  {
  }

}
