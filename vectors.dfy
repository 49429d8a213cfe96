/**
 * The shell hands argument lists around as NULL-terminated `char**` vectors
 * that it allocates with malloc and fills cell by cell. A cell is modelled as
 * a `Slot`: never written since the allocation, the NULL terminator, or a
 * pointer to a string.
 */
module CVectors {
  import opened Wrappers

  datatype Slot = Unset | Null | Arg(value: string)

  /** The cells that point to the strings of `ts`, in order. */
  function Args(ts: seq<string>): (v: seq<Slot>)
    ensures |v| == |ts|
    ensures forall k :: 0 <= k < |ts| ==> v[k] == Arg(ts[k])
  {
    seq(|ts|, k requires 0 <= k < |ts| => Arg(ts[k]))
  }

  /**
   * The argument list a reader of the vector sees: the strings before the
   * first NULL. None when a cell that was never written comes first (reading
   * it is undefined behaviour) or when there is no NULL at all.
   */
  function Argv(v: seq<Slot>): (r: Option<seq<string>>)
    ensures r.Some? ==> |r.value| < |v| && v[|r.value|] == Null
    ensures r.Some? ==> v[..|r.value|] == Args(r.value)
    ensures r.None? ==>
      forall n :: 0 <= n < |v| && v[n] == Null ==> exists k :: 0 <= k < n && v[k] == Unset
  {
    if v == [] then None
    else match v[0]
      case Null => Some([])
      case Unset => None
      case Arg(a) =>
        match Argv(v[1..])
        case None => None
        case Some(rest) => Some([a] + rest)
  }

  /** A vector filled with `ts` and terminated by NULL reads back as `ts`. */
  lemma {:induction false} ArgvOfArgs(ts: seq<string>, tail: seq<Slot>)
    ensures Argv(Args(ts) + [Null] + tail) == Some(ts)
  {
    var v := Args(ts) + [Null] + tail;
    if ts != [] {
      assert v[1..] == Args(ts[1..]) + [Null] + tail;
      ArgvOfArgs(ts[1..], tail);
      assert [ts[0]] + ts[1..] == ts;
    }
  }
}
