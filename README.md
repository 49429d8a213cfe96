# jshell: tokenizer and command executor in Dafny

jshell is a small Unix shell written in C (`jshell.c`). It reads a line,
splits it into tokens, and runs the tokens as a command. The command can be
a builtin (`cd`, `help`, `exit`), an external program, or two programs joined
by a pipe `|`. This project models the two parts of that path that are pure
logic:

- **The tokenizer** (`is_delimiter`, `split_line`), in `tokenizer.dfy`.
  - Words are separated by space, tab, CR, LF or BEL.
  - Double quotes group words and are dropped.
  - A closing quote must be followed by a delimiter or the end of the line.
  - An unterminated quote is an error.
  - Empty tokens are never emitted.
  - `Split` is the tokenizer as a pure state machine. `SplitLine` follows
    the C loop: it scans the NUL-terminated line once and fills a `char*`
    vector that grows by 32 cells at a time, with the counters of
    jshell.c:140-146 as written. Its last step, storing the NULL, is the
    corrected `Terminate` of "## Findings", which grows the vector first when
    it is full. With that step, `SplitLine` is proved to return exactly what
    `Split` gives.
  - The lemmas compare `Split` with definitions that do not follow the loop.
    `Words` is the maximal runs of non-delimiters. `Kept` is the characters
    left after quoting. `QuoteCount` is the quote parity that decides the
    two errors.
- **The executor** (`jshell_exec`, `jshell_pipe`, the builtins table, and
  what `jshell_cd`, `jshell_help`, `jshell_exit`, `jshell_run` and
  `jshell_exec_pipe` return), in `executor.dfy`.
  - `Classify` says what `jshell_exec` does with a token sequence:
    - an empty command;
    - a `|` syntax error;
    - a missing right command;
    - a pipeline with its two vectors;
    - a builtin;
    - an external program.
  - `Outcome` says which status it returns: 0 success, 1 failure, 27 exit.
    It can also abort the shell through `raise_error`.
  - The methods `Exec`, `LookupBuiltin`, `HelpNames`, `FindSizeofLeft` and
    `CopyTokens` are the C loops. They are proved against those functions.

`char**` vectors are sequences of `Slot` (`vectors.dfy`):
- `Arg(s)` is a pointer to a string.
- `Null` is the terminating NULL.
- `Unset` is a malloc'd cell that was never written.
- `Argv` reads a vector the way `execvp` does, up to its NULL. It gives
  `None` when an unwritten cell comes first.

`raise_error` prints a message and exits the process. It is modelled as an
error result: `Err(SplitError)` in the tokenizer, `Aborted(message)` in the
executor. The operating system's answers to `pipe` and `fork` are a
parameter `Os`.

## Model

| member | source | states |
|---|---|---|
| Tokenizer.DelimiterFlag | jshell.c:80-92 | `is_delimiter` returns 1 exactly for space, tab, CR, LF and BEL, and 0 for every other character |
| Tokenizer.SplitLine | jshell.c:94-183 | the scanning loop over the NUL-terminated line, ending with the corrected terminator of "## Findings", returns the token vector `Args(ts) + [Null]` when `Split` gives the tokens `ts`, and the same parse error when `Split` fails; the tokens handed to `End_token` are exactly `HandOvers` of the line (one at each delimiter outside quotes and one at the NUL, empty or not), the tokens are the non-empty ones among them, and the counters `(current_token, buffer_size)` it returns from where the loop ends are `CellsAsWritten` of those hand-overs from `(0, 32)`, with as many cells used as tokens |
| Tokenizer.EndToken | jshell.c:138-173 | `End_token` moves the counters `(current_token, buffer_size)` as `EndTokenCells` says (growth by 32 on entry whenever every cell is in use, even for an empty token), reallocates only when it grows, stores the current token only when it is non-empty, and keeps the first cells equal to the tokens so far |
| Tokenizer.Realloc | jshell.c:140-146 | the grown vector is new, has the requested size, and keeps the old cells in order |
| Tokenizer.Terminate | jshell.c:177-182 | the returned vector is the tokens followed by the NULL, after growing the buffer when no cell is left for the NULL |
| Tokenizer.TokensAreNonEmptyAndUnquoted | jshell.c:115-156 | every token is non-empty and contains no double quote |
| Tokenizer.TokensKeepCharacters | jshell.c:115-136 | the tokens, read together, are the line minus its quotes and minus the delimiters outside quotes, in the original order |
| Tokenizer.ScanCopiesRun | jshell.c:132-136 | a run with no quote, and no delimiter when outside quotes, is copied into the current token without ending it; between quotes, delimiters are copied verbatim |
| Tokenizer.UnquotedLineSplitsIntoWords | jshell.c:111-175 | on a line without double quotes the tokens are exactly the maximal runs of non-delimiters, in order, so consecutive delimiters collapse |
| Tokenizer.BlankLineHasNoTokens | jshell.c:148-156 | an empty line or a line of delimiters gives no tokens |
| Tokenizer.SplitErrors | jshell.c:115-179 | "Expected delimiter after end quote." happens exactly when some quote that follows an odd number of quotes is followed by a character that is not a delimiter; "Parsing ended unexpectedly." happens exactly when there is no such quote and the line holds an odd number of quotes; the line splits exactly when neither holds |
| Tokenizer.OpeningQuoteContinuesToken | jshell.c:115-119 | an opening quote does not end the token: `ab"c d"` gives the one token `abc d` |
| Tokenizer.EmptyQuotesGiveNoToken | jshell.c:148-156 | an empty pair of quotes contributes no token: `"" x` gives only `x` |
| Tokenizer.SplitsQuotedWords | jshell.c:111-175 | `echo "a b" c` gives `echo`, `a b` and `c` |
| Tokenizer.EndTokenCells | jshell.c:140-167 | one `End_token` adds a used cell exactly for a non-empty token, grows the allocation exactly when every cell was in use on entry, and never leaves more cells used than allocated |
| Tokenizer.CellsAsWritten | jshell.c:140-167 | over any sequence of `End_token` hand-overs, the cells in use never exceed the cells allocated, grow by at most one per hand-over, and the allocation never shrinks and stays a multiple of 32 |
| Tokenizer.CellsWhileTokensFit | jshell.c:140-167 | while the tokens fit, the vector does not grow and each non-empty token takes the next cell |
| Tokenizer.StoredKeepsNonEmpty | jshell.c:148-156 | handed only non-empty tokens, `End_token` stores every one of them, in order |
| Tokenizer.FullAfterOneBufferOfTokens | jshell.c:140-167 | handed 32 non-empty tokens from an empty vector, `End_token` stores all of them and uses every one of the 32 cells |
| Tokenizer.OneLetterWordsHandOver | jshell.c:111-175 | on a line of one-letter words separated by single spaces, the loop hands `End_token` each word on its own, one at each space and the last at the NUL |
| Tokenizer.TerminatorOverrunAsWritten | jshell.c:181 | on the line of 32 one-letter words separated by single spaces, the loop hands `End_token` exactly the 32 words, all 32 are stored, and the counters `SplitLine` returns are `(32, 32)`: every cell is in use, so the NULL written at index `current_token` lies outside the vector |
| Executor.LookupBuiltin | jshell.c:460-465 | the lookup finds a builtin exactly when some entry of the table has the command's name, and returns the function of the first such entry |
| Executor.HelpNames | jshell.c:313-316 | `help` lists the builtin names in table order |
| Executor.HelpNamesRunTheirBuiltins | jshell.c:49-57 | the table has 3 entries, and each name `help` lists runs its own entry's function |
| Executor.BuiltinStatus | jshell.c:293-324 | `cd` with no argument aborts; `exit` returns 27; `help` and `cd` with a directory return 0 |
| Executor.ExecPipe | jshell.c:326-389 | `jshell_exec_pipe` returns 1 exactly when the pipe or one of the two forks fails, and 0 otherwise |
| Executor.SizeofLeft | jshell.c:399-403 | `sizeof_left` is 0 exactly when no token after the first starts with `\|`; otherwise it is one past the last such token |
| Executor.FindSizeofLeft | jshell.c:399-403 | the first loop of `jshell_pipe` computes `SizeofLeft` |
| Executor.CopyTokens | jshell.c:421-432 | the copy loop leaves `left_args` as `LeftCells` (tokens at their own index, unwritten cells at separators, NULL last) and `right_args` as the tokens after the boundary followed by NULL |
| Executor.SplitPipe | jshell.c:391-432 | `jshell_pipe` gives up when `sizeof_left` or `sizeof_right` is 0, and otherwise builds exactly `PipeVectors(args)` |
| Executor.Pipe | jshell.c:391-435 | `jshell_pipe` returns 1 exactly when no token after the first is `\|`-initial (`sizeof_left` is 0) or the pipe or one of the forks fails, and 0 otherwise |
| Executor.FirstPipe | jshell.c:445-446 | the scan finds the first token whose first character is `\|`, or reports that there is none |
| Executor.Exec | jshell.c:437-468 | `jshell_exec` returns `Outcome(args, os)`: the pipe scan, then the builtin lookup, then the external run |
| Executor.EmptyCommandSucceeds | jshell.c:440-443 | an empty command runs nothing and returns 0 |
| Executor.AbortsOnlyOnBareCd | jshell.c:294-296 | the executor aborts the shell exactly on the command `cd` with nothing after it |
| Executor.ExitCodeOnlyFromExit | jshell.c:322-324 | status 27 comes exactly from a command named `exit` that has no `\|`-initial token, whatever its other arguments |
| Executor.StatusWithoutPipes | jshell.c:460-467 | without a `\|`-initial token: `exit` gives 27, a bare `cd` aborts with its message, and any other command (help, cd with a directory, an external program) gives 0 |
| Executor.FailsOnlyOnPipes | jshell.c:446-454 | status 1 comes exactly from the first `\|`-initial token being first, longer than one character, or last, or from a failed pipe or fork |
| Executor.PipeCheckPrecedesBuiltins | jshell.c:445-465 | a valid separator makes a pipeline even when the command name is `exit`, so `exit \| x` does not return 27 |
| Executor.ExitPipedIsAPipeline | jshell.c:445-455 | `exit \| x` is the pipeline of vectors `[exit, NULL]` and `[x, NULL]` |
| Executor.InnerBarIsOrdinary | jshell.c:446 | a `\|` that does not start a token is an ordinary character: with no `\|`-initial token, what runs depends on the command name only |
| Executor.PipelineOfOneSeparator | jshell.c:445-455 | with a single bare `\|` that is neither first nor last, `jshell_exec` runs the pipeline of the tokens before it and the tokens after it |
| Executor.OneSeparatorSplitsTheLine | jshell.c:399-432 | with one separator at `p`, the left vector reads as `args[..p]` and the right as `args[p+1..]`; both are non-empty and put back together with `\|` they give the line |
| Executor.LastSeparatorBoundsTheRight | jshell.c:399-404 | the right command is everything after the last `\|`-initial token |
| Executor.TwoSeparatorsLeaveAHole | jshell.c:421-431 | with two `\|`-initial tokens the left vector has an unwritten cell before its NULL, so it is not a well-formed argument vector |
| Executor.TrailingSeparatorEmptiesTheRight | jshell.c:404-432 | a `\|`-initial last token leaves `right_args` holding only its NULL, an empty command |

## Left out

- `show_prompt` and `jshell_read_line` (jshell.c:189-261) are terminal I/O. They are not modelled. The line reaches `SplitLine` as a parameter.
- The `jshell_loop` read-eval loop (jshell.c:212-229) is not modelled. It is glue around I/O. It stops on status 27, which `ExitCodeOnlyFromExit` characterises.
- Process effects are not modelled:
  - `fork`, `execvp`, `dup2`, `close` and `waitpid` in `jshell_run` and `jshell_exec_pipe`;
  - the concurrency between the two children;
  - the parent's open copies of the pipe descriptors.
  The OS answers to `pipe` and `fork` are the parameter `Os`. `jshell_run` always returns 0, and the model returns 0 for an external command.
- `chdir` in `jshell_cd` and the text printed by `jshell_help` and by the error paths are OS calls and output. They are not modelled. `HelpNames` keeps the list of names that help prints.
- `malloc`/`realloc` failure and `free_double_pointer` are memory management with no visible effect. They are not modelled.
- Tokenizer.SplitLine: the per-token buffer `token` of `MAX_WORD_SIZE` (100) characters is unbounded here. A token longer than 99 characters overflows it in C, and that is not modelled.
- Tokenizer.SplitLine: ends through the corrected `Terminate`, not through the unchecked store at jshell.c:181. The as-written store is not executed by the model; the counters it would see are returned as `cells`, and `TerminatorOverrunAsWritten` shows when they overrun.
- Tokenizer.SplitLine: the line is a read-only sequence of characters with its NUL, not a mutable array. `split_line` never writes to it.
- `jshell_pipe` with two or more `|`-initial tokens: the hole it leaves in `left_args` is represented (`Unset`) and proved (`TwoSeparatorsLeaveAHole`). What `execvp` does with such a vector is not modelled.

## Findings

| source | as written | input that shows it | evidently intended | confidence | as-written member | corrected member |
|---|---|---|---|---|---|---|
| jshell.c:181 | `tokens[current_token] = NULL` is written without checking `current_token` against `buffer_size`. The growth at jshell.c:140-146 only happens before a token is stored. | a line of 32 one-letter words separated by single spaces, e.g. `a a a … a` (32 times): the last `End_token` stores the 32nd token into cell 31, the loop ends, and the NULL goes to cell 32 of a 32-cell vector | the vector ends with a NULL in a cell it owns, after growing when it is full | not executed | Tokenizer.TerminatorOverrunAsWritten | Tokenizer.Terminate |
