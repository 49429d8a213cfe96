/**
 * The command executor of jshell: `jshell_exec`, `jshell_pipe`, the builtins
 * table and what `jshell_cd`, `jshell_help`, `jshell_exit`, `jshell_run` and
 * `jshell_exec_pipe` return.
 *
 * A command is the token sequence `split_line` produced (the strings before
 * the vector's NULL). `Classify` says what `jshell_exec` does with it and
 * `Outcome` what it returns; `Exec` is the scanning code itself, proved to
 * agree with them. The operating system's answers (whether `pipe` and each
 * `fork` succeed) are a parameter: the child processes, their I/O and the
 * waiting are not modelled.
 */
module Executor {
  import opened Wrappers
  import opened CVectors

  const Success: int := 0
  const Failed: int := 1
  /** The status `exit` returns; the read-eval loop stops on it. */
  const ExitCode: int := 27
  const PipeChar: char := '|'

  /** The functions a builtin name runs. */
  datatype BuiltinFunc = Cd | Help | Exit

  datatype Builtin = Builtin(name: string, func: BuiltinFunc)

  /** The builtins table, in its declaration order. */
  const Builtins: seq<Builtin> := [Builtin("cd", Cd), Builtin("help", Help), Builtin("exit", Exit)]

  /** What the operating system answers to the calls of `jshell_exec_pipe`. */
  datatype Os = Os(pipeOk: bool, firstForkOk: bool, secondForkOk: bool)

  /**
   * How a call ends: with a status code, or with `raise_error`, which prints
   * the message and exits the whole shell.
   */
  datatype Status = Returned(code: int) | Aborted(message: string)

  /** What `jshell_exec` does with a command. */
  datatype Command =
    | EmptyCommand
    | PipeSyntaxError
    | MissingRightCommand
    | Pipeline(left: seq<Slot>, right: seq<Slot>)
    | RunBuiltin(func: BuiltinFunc)
    | RunExternal

  /** Only the first character of a token marks it as a pipe separator. */
  predicate PipeInitial(t: string)
  {
    |t| > 0 && t[0] == PipeChar
  }

  // ---------------------------------------------------------------------
  // Builtins

  /** `jshell_num_builtins`: the number of entries in the table. */
  function NumBuiltins(): nat
  {
    |Builtins|
  }

  /** The first entry of `table` named `name`, if any. */
  function FindIn(table: seq<Builtin>, name: string): (r: Option<nat>)
    ensures r.Some? ==> r.value < |table| && table[r.value].name == name
    ensures r.Some? ==> forall k :: 0 <= k < r.value ==> table[k].name != name
    ensures r.None? ==> forall k :: 0 <= k < |table| ==> table[k].name != name
    decreases |table|
  {
    if table == [] then None
    else if table[0].name == name then Some(0)
    else
      match FindIn(table[1..], name)
      case None => None
      case Some(k) => Some(k + 1)
  }

  /** The builtin a command name runs, if it names one. */
  function FindBuiltin(name: string): Option<BuiltinFunc>
  {
    match FindIn(Builtins, name)
    case None => None
    case Some(k) => Some(Builtins[k].func)
  }

  /**
   * The lookup loop of `jshell_exec`: compares the command name with each
   * entry's name, in table order.
   */
  method LookupBuiltin(name: string) returns (r: Option<BuiltinFunc>)
    ensures r.Some? <==> exists k :: 0 <= k < |Builtins| && Builtins[k].name == name
    ensures r == FindBuiltin(name)
  {
    var i := 0;
    while i < NumBuiltins()
      invariant 0 <= i <= |Builtins|
      invariant forall k :: 0 <= k < i ==> Builtins[k].name != name
    {
      if name == Builtins[i].name {
        assert FindIn(Builtins, name) == Some(i);
        return Some(Builtins[i].func);
      }
      i := i + 1;
    }
    return None;
  }

  /** The names of the builtins, in table order. */
  function BuiltinNames(table: seq<Builtin>): (names: seq<string>)
    ensures |names| == |table|
    ensures forall k :: 0 <= k < |table| ==> names[k] == table[k].name
  {
    if table == [] then [] else [table[0].name] + BuiltinNames(table[1..])
  }

  /** The list `jshell_help` prints, one `> name` line per builtin. */
  method HelpNames() returns (names: seq<string>)
    ensures names == BuiltinNames(Builtins)
  {
    names := [];
    var i := 0;
    var n := NumBuiltins();
    while i < n
      invariant 0 <= i <= n == |Builtins|
      invariant names == BuiltinNames(Builtins[..i])
    {
      assert Builtins[..i + 1] == Builtins[..i] + [Builtins[i]];
      BuiltinNamesAppend(Builtins[..i], Builtins[i]);
      names := names + [Builtins[i].name];
      i := i + 1;
    }
    assert Builtins[..n] == Builtins;
  }

  lemma {:induction false} BuiltinNamesAppend(table: seq<Builtin>, b: Builtin)
    ensures BuiltinNames(table + [b]) == BuiltinNames(table) + [b.name]
  {
    if table != [] {
      assert (table + [b])[1..] == table[1..] + [b];
      BuiltinNamesAppend(table[1..], b);
    }
  }

  /**
   * Every name `help` lists runs its own builtin: no two entries share a
   * name, so the lookup never stops at another entry first.
   */
  lemma HelpNamesRunTheirBuiltins(names: seq<string>)
    requires names == BuiltinNames(Builtins)
    ensures |names| == NumBuiltins() == 3
    ensures forall k :: 0 <= k < |names| ==> FindBuiltin(names[k]) == Some(Builtins[k].func)
  {
    assert forall a, b :: 0 <= a < b < |Builtins| ==> Builtins[a].name != Builtins[b].name;
    forall k | 0 <= k < |names|
      ensures FindBuiltin(names[k]) == Some(Builtins[k].func)
    {
      var r := FindIn(Builtins, names[k]);
      assert r.Some? && r.value == k;
    }
  }

  // ---------------------------------------------------------------------
  // What the builtins and the external run return

  /**
   * `jshell_cd`, `jshell_help` and `jshell_exit` on the command `args`: `cd`
   * without a directory is fatal; the change of directory itself and the
   * help text are not modelled.
   */
  function BuiltinStatus(func: BuiltinFunc, args: seq<string>): (st: Status)
    requires |args| > 0
    ensures st.Aborted? <==> func == Cd && |args| == 1
    ensures st.Returned? ==> st.code == (if func == Exit then ExitCode else Success)
  {
    match func
    case Cd => if |args| < 2 then Aborted("Argument expected for 'cd' command") else Returned(Success)
    case Help => Returned(Success)
    case Exit => Returned(ExitCode)
  }

  /**
   * `jshell_exec_pipe`: fails when the pipe or either fork cannot be made,
   * and otherwise succeeds once both children have ended.
   */
  function ExecPipe(left: seq<Slot>, right: seq<Slot>, os: Os): (code: int)
    ensures code == Failed <==> !(os.pipeOk && os.firstForkOk && os.secondForkOk)
    ensures code == Success || code == Failed
  {
    if !os.pipeOk then Failed
    else if !os.firstForkOk then Failed
    else if !os.secondForkOk then Failed
    else Success
  }

  // ---------------------------------------------------------------------
  // jshell_pipe: splitting a command at its separator

  /**
   * `sizeof_left` of `jshell_pipe`: one more than the index of the last
   * `|`-initial token after the first, or 0 when there is none.
   */
  function SizeofLeft(args: seq<string>): (size: nat)
    ensures size == 0 <==> forall k :: 1 <= k < |args| ==> !PipeInitial(args[k])
    ensures size != 0 ==> 2 <= size <= |args| && PipeInitial(args[size - 1])
    ensures size != 0 ==> forall k :: size <= k < |args| ==> !PipeInitial(args[k])
    decreases |args|
  {
    if |args| <= 1 then 0
    else if PipeInitial(args[|args| - 1]) then |args|
    else SizeofLeft(args[..|args| - 1])
  }

  /**
   * `left_args` as `jshell_pipe` leaves it: the tokens before position
   * `size - 1` that are not `|`-initial, each at its own index, a cell
   * never written at each `|`-initial index, and the NULL last.
   */
  function LeftCells(args: seq<string>, size: nat): (cells: seq<Slot>)
    requires 1 <= size <= |args|
  {
    seq(size, k requires 0 <= k < size =>
      if k == size - 1 then Null
      else if PipeInitial(args[k]) then Unset
      else Arg(args[k]))
  }

  /** `right_args` as `jshell_pipe` leaves it: the tokens from `size` on, then the NULL. */
  function RightCells(args: seq<string>, size: nat): seq<Slot>
    requires size <= |args|
  {
    Args(args[size..]) + [Null]
  }

  /**
   * The two vectors `jshell_pipe` builds, or None when it gives up (there is
   * no `|`-initial token after the first).
   */
  function PipeVectors(args: seq<string>): Option<(seq<Slot>, seq<Slot>)>
  {
    var left := SizeofLeft(args);
    var right := |args| - left + 1;
    if left == 0 || right == 0 then None
    else Some((LeftCells(args, left), RightCells(args, left)))
  }

  /** The first loop of `jshell_pipe`: finds `sizeof_left`. */
  method FindSizeofLeft(args: seq<string>) returns (size: nat)
    requires |args| > 0
    ensures size == SizeofLeft(args)
  {
    size := 0;
    var i := 1;
    while i < |args|
      invariant 1 <= i <= |args|
      invariant size == SizeofLeft(args[..i])
    {
      assert args[..i + 1][..i] == args[..i];
      if PipeInitial(args[i]) {
        size := i + 1;
      }
      i := i + 1;
    }
    assert args[..i] == args;
  }

  /**
   * The second loop of `jshell_pipe`: copies each token that is not
   * `|`-initial to `left_args` at its own index when that is below
   * `sizeof_left`, and otherwise to the next cell of `right_args`; then ends
   * both vectors with NULL.
   */
  method CopyTokens(args: seq<string>, sizeofLeft: nat) returns (left: seq<Slot>, right: seq<Slot>)
    requires SizeofLeft(args) == sizeofLeft != 0
    ensures left == LeftCells(args, sizeofLeft)
    ensures right == RightCells(args, sizeofLeft)
  {
    var leftArgs := new Slot[sizeofLeft](_ => Unset);
    var rightArgs := new Slot[|args| - sizeofLeft + 1](_ => Unset);
    var i, j := 0, 0;
    while i < |args|
      invariant 0 <= i <= |args| && leftArgs != rightArgs
      invariant j == (if i <= sizeofLeft then 0 else i - sizeofLeft)
      invariant forall k :: 0 <= k < sizeofLeft ==>
        leftArgs[k] == (if k < i && !PipeInitial(args[k]) then Arg(args[k]) else Unset)
      invariant forall k :: 0 <= k < j ==> rightArgs[k] == Arg(args[sizeofLeft + k])
    {
      if PipeInitial(args[i]) {
        assert i < sizeofLeft;
        i := i + 1;
        continue;
      }
      if i < sizeofLeft {
        leftArgs[i] := Arg(args[i]);
      } else {
        assert j == i - sizeofLeft < rightArgs.Length - 1;
        rightArgs[j] := Arg(args[i]);
        j := j + 1;
      }
      i := i + 1;
    }
    leftArgs[sizeofLeft - 1] := Null;
    rightArgs[rightArgs.Length - 1] := Null;
    left, right := leftArgs[..], rightArgs[..];
    LeftCellsPointwise(args, sizeofLeft, left);
    RightCellsPointwise(args, sizeofLeft, right);
  }

  lemma LeftCellsPointwise(args: seq<string>, size: nat, cells: seq<Slot>)
    requires 1 <= size <= |args| && |cells| == size && cells[size - 1] == Null
    requires forall k :: 0 <= k < size - 1 ==>
      cells[k] == (if PipeInitial(args[k]) then Unset else Arg(args[k]))
    ensures cells == LeftCells(args, size)
  {
  }

  lemma RightCellsPointwise(args: seq<string>, size: nat, cells: seq<Slot>)
    requires size <= |args| && |cells| == |args| - size + 1 && cells[|args| - size] == Null
    requires forall k :: 0 <= k < |args| - size ==> cells[k] == Arg(args[size + k])
    ensures cells == RightCells(args, size)
  {
    var expected := RightCells(args, size);
    forall k | 0 <= k < |cells|
      ensures cells[k] == expected[k]
    {
      if k < |args| - size {
        assert expected[k] == Args(args[size..])[k];
      }
    }
  }

  /**
   * The vector-building part of `jshell_pipe`: gives up when `sizeof_left`
   * or `sizeof_right` is 0, and otherwise builds both vectors.
   */
  method SplitPipe(args: seq<string>) returns (r: Option<(seq<Slot>, seq<Slot>)>)
    requires |args| > 0
    ensures r == PipeVectors(args)
  {
    var sizeofLeft := FindSizeofLeft(args);
    var sizeofRight := |args| - sizeofLeft + 1;
    if sizeofLeft == 0 || sizeofRight == 0 {
      return None;
    }
    var left, right := CopyTokens(args, sizeofLeft);
    r := Some((left, right));
  }

  /**
   * `jshell_pipe`: builds the two vectors and runs them through a pipe. It
   * fails when no token after the first is `|`-initial, or when the pipe or a
   * fork fails, and succeeds otherwise.
   */
  method Pipe(args: seq<string>, os: Os) returns (code: int)
    requires |args| > 0
    ensures code == Failed <==> SizeofLeft(args) == 0 || !(os.pipeOk && os.firstForkOk && os.secondForkOk)
    ensures code == Success || code == Failed
  {
    var vectors := SplitPipe(args);
    if vectors.None? {
      return Failed;
    }
    code := ExecPipe(vectors.value.0, vectors.value.1, os);
  }

  // ---------------------------------------------------------------------
  // jshell_exec

  /** The index of the first `|`-initial token, if any. */
  function FirstPipe(args: seq<string>): (r: Option<nat>)
    ensures r.Some? ==> r.value < |args| && PipeInitial(args[r.value])
    ensures r.Some? ==> forall k :: 0 <= k < r.value ==> !PipeInitial(args[k])
    ensures r.None? ==> forall k :: 0 <= k < |args| ==> !PipeInitial(args[k])
    decreases |args|
  {
    if args == [] then None
    else if PipeInitial(args[0]) then Some(0)
    else
      match FirstPipe(args[1..])
      case None => None
      case Some(k) => Some(k + 1)
  }

  /**
   * What `jshell_exec` does with `args`: nothing for an empty command; at
   * the first `|`-initial token, a syntax error when it is the command name
   * or more than the bare `|`, a missing right command when it is the last
   * token, and otherwise a pipeline; without one, the builtin the command
   * name names, or else an external program.
   */
  function Classify(args: seq<string>): Command
  {
    if args == [] then EmptyCommand
    else
      match FirstPipe(args)
      case Some(i) =>
        if |args[i]| > 1 || i == 0 then PipeSyntaxError
        else if i + 1 == |args| then MissingRightCommand
        else Pipeline(PipeVectors(args).value.0, PipeVectors(args).value.1)
      case None =>
        match FindBuiltin(args[0])
        case Some(f) => RunBuiltin(f)
        case None => RunExternal
  }

  /** The status `jshell_exec` ends with. `jshell_run` always returns success. */
  function Outcome(args: seq<string>, os: Os): Status
  {
    match Classify(args)
    case EmptyCommand => Returned(Success)
    case PipeSyntaxError => Returned(Failed)
    case MissingRightCommand => Returned(Failed)
    case Pipeline(left, right) => Returned(ExecPipe(left, right, os))
    case RunBuiltin(f) => BuiltinStatus(f, args)
    case RunExternal => Returned(Success)
  }

  /**
   * `jshell_exec`: scans for the first `|`-initial token, then looks the
   * command name up among the builtins.
   */
  method Exec(args: seq<string>, os: Os) returns (status: Status)
    ensures status == Outcome(args, os)
  {
    if |args| == 0 {
      return Returned(Success);
    }
    var i := 0;
    while i < |args|
      invariant 0 <= i <= |args|
      invariant forall k :: 0 <= k < i ==> !PipeInitial(args[k])
    {
      if PipeInitial(args[i]) {
        assert FirstPipe(args) == Some(i);
        if |args[i]| > 1 || i == 0 {
          return Returned(Failed);
        }
        if i + 1 == |args| {
          return Returned(Failed);
        }
        var code := Pipe(args, os);
        return Returned(code);
      }
      i := i + 1;
    }
    var func := LookupBuiltin(args[0]);
    match func
    case Some(f) =>
      status := BuiltinStatus(f, args);
    case None =>
      status := Returned(Success);
  }

  // ---------------------------------------------------------------------
  // Properties of `Outcome`

  /** An empty command runs nothing and succeeds. */
  lemma EmptyCommandSucceeds(os: Os)
    ensures Classify([]) == EmptyCommand && Outcome([], os) == Returned(Success)
  {
  }

  /** The shell aborts on exactly one command: `cd` with nothing after it. */
  lemma AbortsOnlyOnBareCd(args: seq<string>, os: Os)
    ensures Outcome(args, os).Aborted? <==> args == ["cd"]
  {
    if args == ["cd"] {
      assert FirstPipe(args) == None by {
        assert !PipeInitial(args[0]);
      }
      assert FindIn(Builtins, "cd") == Some(0);
    }
    if Outcome(args, os).Aborted? {
      assert FindBuiltin(args[0]) == Some(Cd);
      assert FindIn(Builtins, args[0]) == Some(0) by {
        var r := FindIn(Builtins, args[0]);
        assert Builtins[r.value].func == Cd;
      }
      assert args == [args[0]];
    }
  }

  /**
   * Status 27, which ends the shell's loop, comes from `exit` and from
   * nothing else, whatever follows the name, unless a `|`-initial token
   * makes the line a pipeline or a pipe error.
   */
  lemma ExitCodeOnlyFromExit(args: seq<string>, os: Os)
    ensures Outcome(args, os) == Returned(ExitCode) <==>
      |args| > 0 && args[0] == "exit" && forall k :: 0 <= k < |args| ==> !PipeInitial(args[k])
  {
    if |args| > 0 && FirstPipe(args).None? {
      if args[0] == "exit" {
        assert FindIn(Builtins, "exit") == Some(2);
      }
      if Outcome(args, os) == Returned(ExitCode) {
        var r := FindIn(Builtins, args[0]);
        assert r.Some? && Builtins[r.value].func == Exit;
        assert r.value == 2;
      }
    }
  }

  /**
   * Without a `|`-initial token the command name decides: `exit` returns 27
   * whatever its arguments, `cd` alone aborts the shell, and `help`, `cd`
   * with a directory and every external program return 0.
   */
  lemma StatusWithoutPipes(args: seq<string>, os: Os)
    requires |args| > 0 && forall k :: 0 <= k < |args| ==> !PipeInitial(args[k])
    ensures args[0] == "exit" ==> Outcome(args, os) == Returned(ExitCode)
    ensures args == ["cd"] ==> Outcome(args, os) == Aborted("Argument expected for 'cd' command")
    ensures args[0] != "exit" && args != ["cd"] ==> Outcome(args, os) == Returned(Success)
  {
    assert FirstPipe(args) == None;
    var r := FindIn(Builtins, args[0]);
    if r.Some? {
      assert r.value == 0 ==> args[0] == "cd";
      assert r.value == 2 ==> args[0] == "exit";
      if r.value == 0 && |args| == 1 {
        assert args == [args[0]];
      }
    } else {
      assert args[0] != Builtins[2].name;
    }
  }

  /**
   * Status 1 means a pipe error: the first `|`-initial token is the command
   * name, or is more than a bare `|`, or ends the line, or else the pipe or
   * a fork could not be made.
   */
  lemma FailsOnlyOnPipes(args: seq<string>, os: Os)
    ensures Outcome(args, os) == Returned(Failed) <==>
      FirstPipe(args).Some? &&
      (var i := FirstPipe(args).value;
       i == 0 || |args[i]| > 1 || i + 1 == |args| ||
       !(os.pipeOk && os.firstForkOk && os.secondForkOk))
  {
    if args != [] && FirstPipe(args).None? {
      match FindBuiltin(args[0])
      case Some(f) =>
        assert BuiltinStatus(f, args) != Returned(Failed);
      case None =>
    }
  }

  /**
   * The pipe check comes before the builtin lookup: a valid separator makes
   * a pipeline even when the command name is a builtin, so `exit | x` runs
   * `exit` as a program and does not leave the shell.
   */
  lemma PipeCheckPrecedesBuiltins(args: seq<string>, os: Os)
    requires 2 <= |args| && args[0] == "exit"
    requires FirstPipe(args).Some? && FirstPipe(args).value + 1 < |args|
    requires args[FirstPipe(args).value] == "|"
    ensures Classify(args).Pipeline?
    ensures Outcome(args, os) != Returned(ExitCode)
  {
  }

  /**
   * A `|` anywhere but at the start of a token is an ordinary character:
   * without a `|`-initial token, what runs depends on the command name only.
   */
  lemma InnerBarIsOrdinary(args: seq<string>, other: seq<string>)
    requires |args| > 0 && |other| > 0 && args[0] == other[0]
    requires forall k :: 0 <= k < |args| ==> !PipeInitial(args[k])
    requires forall k :: 0 <= k < |other| ==> !PipeInitial(other[k])
    ensures Classify(args) == Classify(other)
    ensures Classify(args).RunBuiltin? || Classify(args).RunExternal?
  {
  }

  /** `left_args` for a single separator at `p`: the tokens before it, then NULL. */
  lemma LeftCellsOfOneSeparator(args: seq<string>, p: nat)
    requires 1 <= p < |args|
    requires forall k :: 0 <= k < p ==> !PipeInitial(args[k])
    ensures LeftCells(args, p + 1) == Args(args[..p]) + [Null]
  {
    var cells := LeftCells(args, p + 1);
    forall k | 0 <= k < p + 1
      ensures cells[k] == (Args(args[..p]) + [Null])[k]
    {
      if k < p {
        assert args[..p][k] == args[k];
      }
    }
  }

  /** The pipeline `jshell_exec` runs for a single separator at `p`. */
  lemma PipelineOfOneSeparator(args: seq<string>, p: nat)
    requires 1 <= p <= |args| - 2 && args[p] == "|"
    requires forall k :: 0 <= k < |args| && k != p ==> !PipeInitial(args[k])
    ensures Classify(args) == Pipeline(Args(args[..p]) + [Null], Args(args[p + 1..]) + [Null])
  {
    var first := FirstPipe(args);
    assert first == Some(p) by {
      assert first.Some? && PipeInitial(args[first.value]);
    }
    var size := SizeofLeft(args);
    assert size == p + 1 by {
      assert size != 0 && PipeInitial(args[size - 1]);
    }
    LeftCellsOfOneSeparator(args, p);
  }

  /**
   * With one separator `|` at index `p`, neither first nor last, the left
   * command is the tokens before it and the right command the tokens after
   * it: both are non-empty, both vectors are well-formed, and together with
   * the separator they give back the whole line.
   */
  lemma OneSeparatorSplitsTheLine(args: seq<string>, p: nat)
    requires 1 <= p <= |args| - 2 && args[p] == "|"
    requires forall k :: 0 <= k < |args| && k != p ==> !PipeInitial(args[k])
    ensures Classify(args) == Pipeline(Args(args[..p]) + [Null], Args(args[p + 1..]) + [Null])
    ensures Argv(Args(args[..p]) + [Null]) == Some(args[..p])
    ensures Argv(Args(args[p + 1..]) + [Null]) == Some(args[p + 1..])
    ensures |args[..p]| > 0 && |args[p + 1..]| > 0
    ensures args[..p] + ["|"] + args[p + 1..] == args
  {
    PipelineOfOneSeparator(args, p);
    var left, right := args[..p], args[p + 1..];
    assert Argv(Args(left) + [Null]) == Some(left) by {
      ArgvOfArgs(left, []);
      assert Args(left) + [Null] + [] == Args(left) + [Null];
    }
    assert Argv(Args(right) + [Null]) == Some(right) by {
      ArgvOfArgs(right, []);
      assert Args(right) + [Null] + [] == Args(right) + [Null];
    }
    SeparatorSplitsBack(args, p);
  }

  /** Cutting out the token at `p` and putting it back gives the line again. */
  lemma SeparatorSplitsBack(args: seq<string>, p: nat)
    requires p < |args|
    ensures args[..p] + [args[p]] + args[p + 1..] == args
  {
    assert args[p..] == [args[p]] + args[p + 1..];
    assert args == args[..p] + args[p..];
  }

  /**
   * The boundary comes from the last `|`-initial token: the right command is
   * everything after it, whichever separator `jshell_exec` checked.
   */
  lemma LastSeparatorBoundsTheRight(args: seq<string>, q: nat)
    requires 1 <= q < |args| && PipeInitial(args[q])
    requires forall k :: q < k < |args| ==> !PipeInitial(args[k])
    ensures PipeVectors(args).Some?
    ensures Argv(PipeVectors(args).value.1) == Some(args[q + 1..])
  {
    var size := SizeofLeft(args);
    assert size != 0;
    assert size == q + 1 by {
      assert PipeInitial(args[size - 1]);
    }
    assert PipeVectors(args) == Some((LeftCells(args, size), RightCells(args, size)));
    ArgvOfArgs(args[q + 1..], []);
    assert RightCells(args, size) == Args(args[q + 1..]) + [Null] + [];
  }

  /**
   * Two or more separators are not supported: the cell of every separator
   * but the last is left unwritten before the NULL of `left_args`, so the
   * left command is not a well-formed vector.
   */
  lemma TwoSeparatorsLeaveAHole(args: seq<string>, p: nat, q: nat)
    requires 1 <= p < q < |args| && PipeInitial(args[p]) && PipeInitial(args[q])
    ensures PipeVectors(args).Some?
    ensures Argv(PipeVectors(args).value.0) == None
  {
    var size := SizeofLeft(args);
    var left := LeftCells(args, size);
    assert q <= size - 1;
    assert left[p] == Unset;
    ArgvStopsAtUnset(left, p);
  }

  /** A vector with an unwritten cell before its first NULL is not well-formed. */
  lemma {:induction false} ArgvStopsAtUnset(v: seq<Slot>, p: nat)
    requires p < |v| && v[p] == Unset
    requires forall k :: 0 <= k < p ==> v[k] != Null
    ensures Argv(v) == None
  {
    if p > 0 {
      ArgvStopsAtUnset(v[1..], p - 1);
    }
  }

  /**
   * A separator that ends the line, after a valid one, leaves the right
   * command empty: `right_args` holds only its NULL.
   */
  lemma TrailingSeparatorEmptiesTheRight(args: seq<string>)
    requires 2 <= |args| && PipeInitial(args[|args| - 1])
    ensures PipeVectors(args) == Some((LeftCells(args, |args|), [Null]))
    ensures Argv(PipeVectors(args).value.1) == Some([])
  {
    assert SizeofLeft(args) == |args|;
    assert args[|args|..] == [] && Args([]) == [];
    assert RightCells(args, |args|) == [Null];
  }

  /** `exit | x`: a pipeline of the programs `exit` and `x`, not the builtin. */
  lemma ExitPipedIsAPipeline(os: Os)
    ensures Classify(["exit", "|", "x"]) == Pipeline([Arg("exit"), Null], [Arg("x"), Null])
    ensures Outcome(["exit", "|", "x"], os).code == ExecPipe([Arg("exit"), Null], [Arg("x"), Null], os)
  {
    var args := ["exit", "|", "x"];
    OneSeparatorSplitsTheLine(args, 1);
    assert FirstPipe(args) == Some(1);
    assert SizeofLeft(args) == 2;
    assert LeftCells(args, 2) == [Arg("exit"), Null];
    assert args[2..] == ["x"];
  }
}
