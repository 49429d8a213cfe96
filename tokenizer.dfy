/**
 * The line tokenizer of jshell: `is_delimiter` and `split_line`.
 *
 * `Scan` is the pure meaning of the character loop in `split_line`, read over
 * the line's content (the characters before its NUL terminator). `SplitLine`
 * is the loop itself, over the line buffer up to its NUL terminator (which
 * `split_line` only reads, so it is a sequence here), building the
 * token vector in a buffer that grows by `TokenBufferSize` cells; it is proved
 * to agree with `Split`. The lemmas further down relate `Split` to reference
 * definitions that do not follow the loop: the maximal runs of non-delimiters
 * (`Words`), the characters that survive quoting (`Kept`) and the parity of
 * the quotes before a position (`QuoteCount`).
 */
module Tokenizer {
  import opened Wrappers
  import opened CVectors

  const NUL: char := '\0'
  const Quote: char := '"'
  const Bell: char := '\U{7}'

  /** The token vector starts with this many cells and grows by as many. */
  const TokenBufferSize: nat := 32

  /**
   * The two parse errors `split_line` raises, each of which ends the process:
   * "Expected delimiter after end quote." and "Parsing ended unexpectedly.".
   */
  datatype SplitError = ExpectedDelimiter | UnexpectedEnd

  /**
   * `is_delimiter`: 1 for space, tab, carriage return, line feed and bell,
   * which separate words, and 0 for every other character.
   */
  function DelimiterFlag(c: char): (r: int)
    ensures r == 0 || r == 1
    ensures r == 1 <==> c in {' ', '\t', '\r', '\n', Bell}
  {
    if c == ' ' || c == '\t' || c == '\r' || c == '\n' || c == Bell then 1 else 0
  }

  /** The truth value the tokenizer takes from `is_delimiter`. */
  predicate IsDelimiter(c: char)
  {
    DelimiterFlag(c) != 0
  }

  /** Ends the current token: an empty token is dropped, never emitted. */
  function Flush(acc: seq<string>, cur: string): seq<string>
  {
    if cur == [] then acc else acc + [cur]
  }

  /**
   * The tokenizer's state machine from position `i` of the line content `s`,
   * with the quote flag `inQuotes`, the token being built `cur` and the
   * tokens finished so far `acc`. Position `|s|` is the NUL terminator, so the
   * lookahead after a closing quote sees NUL there. A closing quote is dropped
   * and the token continues to the character after it, which the lookahead
   * has checked is a delimiter or the terminator, so the token ends there.
   */
  function Scan(s: string, i: nat, inQuotes: bool, cur: string, acc: seq<string>)
    : Result<seq<string>, SplitError>
    requires i <= |s|
    decreases |s| - i
  {
    if i == |s| then
      if inQuotes then Err(UnexpectedEnd) else Ok(Flush(acc, cur))
    else if s[i] == Quote then
      if inQuotes && i + 1 < |s| && !IsDelimiter(s[i + 1]) then Err(ExpectedDelimiter)
      else Scan(s, i + 1, !inQuotes, cur, acc)
    else if !IsDelimiter(s[i]) || inQuotes then
      Scan(s, i + 1, inQuotes, cur + [s[i]], acc)
    else
      Scan(s, i + 1, inQuotes, [], Flush(acc, cur))
  }

  /** The tokens of a line, or the error that aborts the shell. */
  function Split(s: string): Result<seq<string>, SplitError>
  {
    Scan(s, 0, false, [], [])
  }

  /** The length of the C string held in `line`: the index of its first NUL. */
  function Strlen(line: seq<char>): (n: nat)
    requires NUL in line
    ensures n < |line| && line[n] == NUL
    ensures forall k :: 0 <= k < n ==> line[k] != NUL
  {
    if line[0] == NUL then 0 else 1 + Strlen(line[1..])
  }

  /** The characters of the C string held in `line`, without its NUL. */
  function Content(line: seq<char>): (s: string)
    requires NUL in line
    ensures NUL !in s
  {
    line[..Strlen(line)]
  }

  /** `realloc` of the token vector: the first cells keep their contents. */
  method Realloc(a: array<Slot>, size: nat) returns (b: array<Slot>)
    requires a.Length <= size
    ensures fresh(b) && b.Length == size
    ensures b[..a.Length] == a[..]
  {
    b := new Slot[size](_ => Unset);
    var k := 0;
    while k < a.Length
      invariant 0 <= k <= a.Length
      invariant b[..k] == a[..k]
    {
      b[k] := a[k];
      k := k + 1;
    }
  }

  /**
   * The `End_token` block of `split_line`: grows the token vector when every
   * cell is taken, then stores the current token unless it is empty.
   */
  method EndToken(tokens: array<Slot>, bufferSize: nat, currentToken: nat, token: string,
                  ghost acc: seq<string>)
    returns (tokens': array<Slot>, bufferSize': nat, currentToken': nat, ghost acc': seq<string>)
    requires tokens.Length == bufferSize
    requires currentToken == |acc| <= bufferSize
    requires tokens[..currentToken] == Args(acc)
    modifies tokens
    ensures tokens' == tokens || fresh(tokens')
    ensures tokens'.Length == bufferSize'
    ensures currentToken' == |acc'| <= bufferSize'
    ensures tokens'[..currentToken'] == Args(acc')
    ensures acc' == Flush(acc, token)
    ensures (currentToken', bufferSize') == EndTokenCells((currentToken, bufferSize), token)
    ensures bufferSize' == bufferSize ==> tokens' == tokens
  {
    tokens', bufferSize', currentToken', acc' := tokens, bufferSize, currentToken, acc;
    if currentToken' >= bufferSize' {
      bufferSize' := bufferSize' + TokenBufferSize;
      tokens' := Realloc(tokens', bufferSize');
    }
    if token != [] {
      tokens'[currentToken'] := Arg(token);
      acc' := acc' + [token];
      currentToken' := currentToken' + 1;
      assert tokens'[..currentToken'] == Args(acc');
    }
  }

  /**
   * The last step of `split_line`: the NULL that ends the token vector, in
   * the cell after the last token. The vector grows first when that cell does
   * not exist, a check jshell.c:181 lacks (see `TerminatorOverrunAsWritten`).
   */
  method Terminate(tokens: array<Slot>, bufferSize: nat, currentToken: nat, ghost acc: seq<string>)
    returns (vector: seq<Slot>)
    requires tokens.Length == bufferSize
    requires currentToken == |acc| <= bufferSize
    requires tokens[..currentToken] == Args(acc)
    modifies tokens
    ensures vector == Args(acc) + [Null]
  {
    var cells := tokens;
    if currentToken >= bufferSize {
      cells := Realloc(tokens, bufferSize + TokenBufferSize);
      assert cells[..currentToken] == Args(acc);
    }
    cells[currentToken] := Null;
    assert cells[..currentToken] == Args(acc);
    vector := cells[..currentToken + 1];
  }

  /**
   * The tokens the loop of `split_line` hands to `End_token`, in order: the
   * ones already handed over, `ends`, then those from position `i` of the line
   * content `s` on, following `Scan`: one at each delimiter outside quotes
   * (including the one after a closing quote) and one at the NUL, whether or
   * not the token is empty and whether or not a quote is still open. A closing
   * quote followed by anything else ends the scan.
   */
  ghost function HandOvers(s: string, i: nat, inQuotes: bool, cur: string, ends: seq<string>): seq<string>
    requires i <= |s|
    decreases |s| - i
  {
    if i == |s| then ends + [cur]
    else if s[i] == Quote then
      if inQuotes && i + 1 < |s| && !IsDelimiter(s[i + 1]) then ends
      else HandOvers(s, i + 1, !inQuotes, cur, ends)
    else if !IsDelimiter(s[i]) || inQuotes then
      HandOvers(s, i + 1, inQuotes, cur + [s[i]], ends)
    else
      HandOvers(s, i + 1, inQuotes, [], ends + [cur])
  }

  /** The tokens `End_token` stores out of the tokens it is handed: the non-empty ones. */
  function Stored(ends: seq<string>): seq<string>
  {
    if ends == [] then [] else Flush(Stored(ends[..|ends| - 1]), ends[|ends| - 1])
  }

  /**
   * `split_line`: scans the NUL-terminated `line` once, left to right, and
   * returns the NULL-terminated token vector, or the parse error. `cells` are
   * the counters `(current_token, buffer_size)` when the loop stops, the ones
   * the NULL store of jshell.c:181 goes by; `split_line` keeps them to itself,
   * and they are returned here only so that the as-written NULL store can be
   * stated. The ghost `ends` are the tokens handed to `End_token`, in order.
   * The vector itself ends through `Terminate`.
   */
  method SplitLine(line: seq<char>)
    returns (r: Result<seq<Slot>, SplitError>, cells: (nat, nat), ghost ends: seq<string>)
    requires NUL in line
    ensures match Split(Content(line))
      case Ok(ts) => r == Ok(Args(ts) + [Null]) && cells.0 == |ts|
      case Err(e) => r == Err(e)
    ensures Split(Content(line)).Ok? ==> Stored(ends) == Split(Content(line)).value
    ensures ends == HandOvers(Content(line), 0, false, [], []) && cells == CellsAsWritten(ends, 0, TokenBufferSize)
  {
    ghost var n := Strlen(line);
    ghost var s := Content(line);
    var bufferSize := TokenBufferSize;
    var currentToken := 0;
    var inQuotes := false;
    var tokens := new Slot[bufferSize](_ => Unset);
    var token: string := [];
    ghost var acc: seq<string> := [];
    ghost var outcome := Split(s);
    ghost var handOvers := HandOvers(s, 0, false, [], []);
    ends := [];
    var i := 0;
    while true
      invariant 0 <= i <= n
      invariant fresh(tokens) && tokens.Length == bufferSize
      invariant currentToken == |acc| <= bufferSize
      invariant acc == Stored(ends)
      invariant (currentToken, bufferSize) == CellsAsWritten(ends, 0, TokenBufferSize)
      invariant tokens[..currentToken] == Args(acc)
      invariant Scan(s, i, inQuotes, token, acc) == outcome
      invariant HandOvers(s, i, inQuotes, token, ends) == handOvers
      decreases n - i
    {
      if line[i] == Quote {
        CharOfContent(line, i);
        if !inQuotes {
          ScanOpenQuote(s, i, token, acc, ends);
          inQuotes := true;
          i := i + 1;
          continue;
        }
        CharOfContent(line, i + 1);
        if !IsDelimiter(line[i + 1]) && line[i + 1] != NUL {
          ScanBadEndQuote(s, i, token, acc, ends);
          assert Split(Content(line)) == outcome;
          r, cells := Err(ExpectedDelimiter), (currentToken, bufferSize);
          return;
        }
        ScanEndQuote(s, i, token, acc, ends);
        inQuotes := false;
        i := i + 1;  // on to the delimiter (or NUL) after the end quote
      } else if line[i] != NUL && (!IsDelimiter(line[i]) || inQuotes) {
        // not a delimiter (or quoted): add to the token and move on
        CharOfContent(line, i);
        ScanCopiesChar(s, i, inQuotes, token, acc, ends);
        token := token + [line[i]];
        i := i + 1;
        continue;
      }
      // End_token: at the NUL, at a delimiter outside quotes, after an end quote
      CharOfContent(line, i);
      if line[i] != NUL {
        ScanEndsToken(s, i, token, acc, ends);
      }
      HandOverOne(ends, token);
      tokens, bufferSize, currentToken, acc := EndToken(tokens, bufferSize, currentToken, token, acc);
      ends := ends + [token];
      token := [];
      if line[i] == NUL {
        break;
      }
      i := i + 1;
    }
    assert token == [] && i == n;
    assert Split(Content(line)) == outcome;
    cells := (currentToken, bufferSize);
    if inQuotes {
      r := Err(UnexpectedEnd);
      return;
    }
    var vector := Terminate(tokens, bufferSize, currentToken, acc);
    assert Split(Content(line)) == outcome == Ok(acc);
    r := Ok(vector);
  }

  /** Position `i` of the line content is the character at `i` of the array, or its NUL. */
  lemma CharOfContent(line: seq<char>, i: nat)
    requires NUL in line && i <= Strlen(line)
    ensures |Content(line)| == Strlen(line)
    ensures i < Strlen(line) ==> Content(line)[i] == line[i] != NUL
    ensures i == Strlen(line) <==> line[i] == NUL
  {
  }

  /** What one more hand-over to `End_token` does to the stored tokens and to the counters. */
  lemma HandOverOne(ends: seq<string>, token: string)
    ensures Stored(ends + [token]) == Flush(Stored(ends), token)
    ensures CellsAsWritten(ends + [token], 0, TokenBufferSize)
         == EndTokenCells(CellsAsWritten(ends, 0, TokenBufferSize), token)
  {
    assert (ends + [token])[..|ends|] == ends;
  }

  // One step of `Scan` (and of `HandOvers`) for each branch of the loop in `split_line`.

  lemma ScanOpenQuote(s: string, i: nat, cur: string, acc: seq<string>, ends: seq<string>)
    requires i < |s| && s[i] == Quote
    ensures Scan(s, i, false, cur, acc) == Scan(s, i + 1, true, cur, acc)
    ensures HandOvers(s, i, false, cur, ends) == HandOvers(s, i + 1, true, cur, ends)
  {
  }

  lemma ScanBadEndQuote(s: string, i: nat, cur: string, acc: seq<string>, ends: seq<string>)
    requires i + 1 < |s| && s[i] == Quote && !IsDelimiter(s[i + 1])
    ensures Scan(s, i, true, cur, acc) == Err(ExpectedDelimiter)
    ensures HandOvers(s, i, true, cur, ends) == ends
  {
  }

  lemma ScanEndQuote(s: string, i: nat, cur: string, acc: seq<string>, ends: seq<string>)
    requires i < |s| && s[i] == Quote && (i + 1 == |s| || IsDelimiter(s[i + 1]))
    ensures Scan(s, i, true, cur, acc) == Scan(s, i + 1, false, cur, acc)
    ensures HandOvers(s, i, true, cur, ends) == HandOvers(s, i + 1, false, cur, ends)
  {
  }

  lemma ScanCopiesChar(s: string, i: nat, inQuotes: bool, cur: string, acc: seq<string>, ends: seq<string>)
    requires i < |s| && s[i] != Quote && (!IsDelimiter(s[i]) || inQuotes)
    ensures Scan(s, i, inQuotes, cur, acc) == Scan(s, i + 1, inQuotes, cur + [s[i]], acc)
    ensures HandOvers(s, i, inQuotes, cur, ends) == HandOvers(s, i + 1, inQuotes, cur + [s[i]], ends)
  {
  }

  lemma ScanEndsToken(s: string, i: nat, cur: string, acc: seq<string>, ends: seq<string>)
    requires i < |s| && s[i] != Quote && IsDelimiter(s[i])
    ensures Scan(s, i, false, cur, acc) == Scan(s, i + 1, false, [], Flush(acc, cur))
    ensures HandOvers(s, i, false, cur, ends) == HandOvers(s, i + 1, false, [], ends + [cur])
  {
  }

  // ---------------------------------------------------------------------
  // The token vector's cells as jshell.c manages them

  /**
   * One `End_token` on the vector's counters `(current_token, buffer_size)`:
   * the vector grows by 32 cells when every cell is already taken on entry,
   * whether or not the token is empty, and only a non-empty token takes a
   * cell.
   */
  function EndTokenCells(cells: (nat, nat), token: string): (cells': (nat, nat))
    requires cells.0 <= cells.1
    ensures cells'.0 <= cells'.1 && cells.1 <= cells'.1
    ensures cells'.0 == cells.0 + (if token == [] then 0 else 1)
    ensures cells'.1 > cells.1 <==> cells.0 == cells.1
  {
    var size := if cells.0 >= cells.1 then cells.1 + TokenBufferSize else cells.1;
    (if token == [] then cells.0 else cells.0 + 1, size)
  }

  /**
   * The counters after `End_token` has run once for each of `ends`, in order,
   * from `count` cells used of `size`.
   */
  function CellsAsWritten(ends: seq<string>, count: nat, size: nat): (cells: (nat, nat))
    requires count <= size
    ensures count <= cells.0 <= cells.1 && size <= cells.1
    ensures cells.0 <= count + |ends|
    ensures size % TokenBufferSize == 0 ==> cells.1 % TokenBufferSize == 0
    decreases |ends|
  {
    if ends == [] then (count, size)
    else EndTokenCells(CellsAsWritten(ends[..|ends| - 1], count, size), ends[|ends| - 1])
  }

  /**
   * While the tokens fit, the vector does not grow and each non-empty token
   * takes the next cell.
   */
  lemma {:induction false} CellsWhileTokensFit(tokens: seq<string>, count: nat, size: nat)
    requires count + |tokens| <= size
    requires forall k :: 0 <= k < |tokens| ==> tokens[k] != []
    ensures CellsAsWritten(tokens, count, size) == (count + |tokens|, size)
    decreases |tokens|
  {
    if tokens != [] {
      CellsWhileTokensFit(tokens[..|tokens| - 1], count, size);
    }
  }

  /** Handed only non-empty tokens, `End_token` stores every one of them. */
  lemma {:induction false} StoredKeepsNonEmpty(ends: seq<string>)
    requires forall k :: 0 <= k < |ends| ==> ends[k] != []
    ensures Stored(ends) == ends
    decreases |ends|
  {
    if ends != [] {
      StoredKeepsNonEmpty(ends[..|ends| - 1]);
    }
  }

  /**
   * Handed 32 non-empty tokens from an empty vector, `End_token` stores all
   * of them and leaves every one of the 32 cells in use.
   */
  lemma FullAfterOneBufferOfTokens(ends: seq<string>)
    requires |ends| == TokenBufferSize
    requires forall k :: 0 <= k < |ends| ==> ends[k] != []
    ensures Stored(ends) == ends
    ensures CellsAsWritten(ends, 0, TokenBufferSize) == (TokenBufferSize, TokenBufferSize)
  {
    StoredKeepsNonEmpty(ends);
    CellsWhileTokensFit(ends, 0, TokenBufferSize);
  }

  /** `m` one-letter words `a`, separated by single spaces. */
  function OneLetterWords(m: nat): (s: string)
    requires 0 < m
    ensures |s| == 2 * m - 1
    ensures forall j :: 0 <= j < |s| ==> s[j] == (if j % 2 == 0 then 'a' else ' ')
  {
    seq(2 * m - 1, j => if j % 2 == 0 then 'a' else ' ')
  }

  /** From a word boundary on, each of the remaining words is handed over on its own. */
  lemma {:induction false} OneLetterWordsHandOver(s: string, i: nat, ends: seq<string>)
    requires |s| % 2 == 1
    requires forall j :: 0 <= j < |s| ==> s[j] == (if j % 2 == 0 then 'a' else ' ')
    requires i % 2 == 0 && i < |s|
    ensures HandOvers(s, i, false, [], ends) == ends + seq((|s| - i + 1) / 2, _ => "a")
    decreases |s| - i
  {
    assert s[i] == 'a' && [] + [s[i]] == "a";
    assert HandOvers(s, i, false, [], ends) == HandOvers(s, i + 1, false, "a", ends);
    if i + 1 < |s| {
      assert s[i + 1] == ' ';
      OneLetterWordsHandOver(s, i + 2, ends + ["a"]);
      assert HandOvers(s, i + 1, false, "a", ends) == HandOvers(s, i + 2, false, [], ends + ["a"]);
      assert ends + ["a"] + seq((|s| - i - 1) / 2, _ => "a") == ends + seq((|s| - i + 1) / 2, _ => "a");
    }
  }

  /**
   * As written, `split_line` stores the NULL terminator at index
   * `current_token` without checking it against `buffer_size`
   * (jshell.c:181). On the line of 32 one-letter words separated by single
   * spaces, the loop hands `End_token` the 32 words, one at each space and
   * the last at the NUL, so all 32 are stored and the counters `SplitLine`
   * returns as `cells` are `(32, 32)`: every cell is in use, and the NULL
   * lands one past the vector. `Terminate` grows the vector first.
   */
  lemma TerminatorOverrunAsWritten()
    ensures NUL in OneLetterWords(TokenBufferSize) + [NUL]
    ensures HandOvers(Content(OneLetterWords(TokenBufferSize) + [NUL]), 0, false, [], [])
         == seq(TokenBufferSize, _ => "a")
    ensures Stored(seq(TokenBufferSize, _ => "a")) == seq(TokenBufferSize, _ => "a")
    ensures CellsAsWritten(seq(TokenBufferSize, _ => "a"), 0, TokenBufferSize) == (TokenBufferSize, TokenBufferSize)
  {
    var s := OneLetterWords(TokenBufferSize);
    var line := s + [NUL];
    assert line[|s|] == NUL;
    assert Content(line) == s;
    OneLetterWordsHandOver(s, 0, []);
    FullAfterOneBufferOfTokens(seq(TokenBufferSize, _ => "a"));
  }

  // ---------------------------------------------------------------------
  // Properties of `Split`

  /** Every token `split_line` emits is non-empty and free of double quotes. */
  lemma {:induction false} ScanTokensWellFormed(s: string, i: nat, inQuotes: bool, cur: string, acc: seq<string>)
    requires i <= |s|
    requires forall t :: t in acc ==> t != [] && Quote !in t
    requires Quote !in cur
    ensures Scan(s, i, inQuotes, cur, acc).Ok? ==>
      forall t :: t in Scan(s, i, inQuotes, cur, acc).value ==> t != [] && Quote !in t
    decreases |s| - i
  {
    if i == |s| {
    } else if s[i] == Quote {
      if !(inQuotes && i + 1 < |s| && !IsDelimiter(s[i + 1])) {
        ScanTokensWellFormed(s, i + 1, !inQuotes, cur, acc);
      }
    } else if !IsDelimiter(s[i]) || inQuotes {
      ScanTokensWellFormed(s, i + 1, inQuotes, cur + [s[i]], acc);
    } else {
      ScanTokensWellFormed(s, i + 1, inQuotes, [], Flush(acc, cur));
    }
  }

  lemma TokensAreNonEmptyAndUnquoted(s: string)
    ensures Split(s).Ok? ==> forall t :: t in Split(s).value ==> |t| > 0 && Quote !in t
  {
    ScanTokensWellFormed(s, 0, false, [], []);
  }

  /** The tokens written one after the other. */
  function Concat(ts: seq<string>): string
  {
    if ts == [] then [] else Concat(ts[..|ts| - 1]) + ts[|ts| - 1]
  }

  /**
   * The characters of `t` that end up in some token, when `t` is read with
   * the quote flag `inQuotes`: quotes are dropped, and so are the delimiters
   * outside quotes; every other character is kept, in order.
   */
  function Kept(t: string, inQuotes: bool): string
  {
    if t == [] then []
    else if t[0] == Quote then Kept(t[1..], !inQuotes)
    else if IsDelimiter(t[0]) && !inQuotes then Kept(t[1..], inQuotes)
    else [t[0]] + Kept(t[1..], inQuotes)
  }

  lemma ConcatFlush(acc: seq<string>, cur: string)
    ensures Concat(Flush(acc, cur)) == Concat(acc) + cur
  {
    if cur != [] {
      assert (acc + [cur])[..|acc|] == acc;
    }
  }

  lemma {:induction false} ScanKeepsCharacters(s: string, i: nat, inQuotes: bool, cur: string, acc: seq<string>)
    requires i <= |s|
    ensures Scan(s, i, inQuotes, cur, acc).Ok? ==>
      Concat(Scan(s, i, inQuotes, cur, acc).value) == Concat(acc) + cur + Kept(s[i..], inQuotes)
    decreases |s| - i
  {
    if i == |s| {
      ConcatFlush(acc, cur);
    } else {
      assert s[i..][1..] == s[i + 1..];
      if s[i] == Quote {
        if !(inQuotes && i + 1 < |s| && !IsDelimiter(s[i + 1])) {
          ScanKeepsCharacters(s, i + 1, !inQuotes, cur, acc);
        }
      } else if !IsDelimiter(s[i]) || inQuotes {
        ScanKeepsCharacters(s, i + 1, inQuotes, cur + [s[i]], acc);
      } else {
        ScanKeepsCharacters(s, i + 1, inQuotes, [], Flush(acc, cur));
        ConcatFlush(acc, cur);
      }
    }
  }

  /**
   * Read together, the tokens hold exactly the line's characters minus its
   * quotes and minus the delimiters outside quotes: delimiters between quotes
   * are copied verbatim, and nothing is reordered.
   */
  lemma TokensKeepCharacters(s: string)
    ensures Split(s).Ok? ==> Concat(Split(s).value) == Kept(s, false)
  {
    ScanKeepsCharacters(s, 0, false, [], []);
    assert s[0..] == s;
  }

  /** The length of the run of non-delimiters that starts `t`. */
  function RunLength(t: string): (k: nat)
    ensures k <= |t|
    ensures forall j :: 0 <= j < k ==> !IsDelimiter(t[j])
    ensures k < |t| ==> IsDelimiter(t[k])
  {
    if t == [] || IsDelimiter(t[0]) then 0 else 1 + RunLength(t[1..])
  }

  /** The maximal runs of non-delimiter characters of `t`, in order. */
  function Words(t: string): (ws: seq<string>)
    ensures forall w :: w in ws ==> w != [] && forall c :: c in w ==> !IsDelimiter(c)
    decreases |t|
  {
    if t == [] then []
    else if IsDelimiter(t[0]) then Words(t[1..])
    else [t[..RunLength(t)]] + Words(t[RunLength(t)..])
  }

  /** The words of `t` when the characters `cur` come before it without a break. */
  function WordsAfter(cur: string, t: string): seq<string>
  {
    if cur == [] then Words(t) else [cur + t[..RunLength(t)]] + Words(t[RunLength(t)..])
  }

  /** At the end of the line the current token is the last word. */
  lemma WordsAfterEnd(acc: seq<string>, cur: string)
    ensures Flush(acc, cur) == acc + WordsAfter(cur, [])
  {
    var t: string := [];
    assert RunLength(t) == 0 && t[..0] == [] && t[0..] == [] && cur + [] == cur;
  }

  /** A delimiter ends the current word. */
  lemma WordsAfterDelimiter(acc: seq<string>, cur: string, t: string)
    requires t != [] && IsDelimiter(t[0])
    ensures Flush(acc, cur) + WordsAfter([], t[1..]) == acc + WordsAfter(cur, t)
  {
    assert RunLength(t) == 0 && t[0..] == t && t[..0] == [];
    assert Words(t) == Words(t[1..]);
    if cur != [] {
      assert cur + t[..0] == cur;
      assert WordsAfter(cur, t) == [cur] + Words(t);
      assert acc + [cur] + Words(t) == acc + ([cur] + Words(t));
    }
  }

  /** A non-delimiter extends the current word. */
  lemma WordsAfterLetter(cur: string, t: string)
    requires t != [] && !IsDelimiter(t[0])
    ensures WordsAfter(cur + [t[0]], t[1..]) == WordsAfter(cur, t)
  {
    var k := RunLength(t[1..]);
    assert RunLength(t) == k + 1;
    assert t[..k + 1] == [t[0]] + t[1..][..k];
    assert t[k + 1..] == t[1..][k..];
    assert (cur + [t[0]]) + t[1..][..k] == cur + t[..k + 1];
    if cur == [] {
      assert Words(t) == [t[..k + 1]] + Words(t[k + 1..]);
      assert cur + t[..k + 1] == t[..k + 1];
    }
  }

  lemma {:induction false} ScanWithoutQuotes(s: string, i: nat, cur: string, acc: seq<string>)
    requires i <= |s|
    requires forall k :: i <= k < |s| ==> s[k] != Quote
    ensures Scan(s, i, false, cur, acc) == Ok(acc + WordsAfter(cur, s[i..]))
    decreases |s| - i
  {
    if i == |s| {
      assert s[i..] == [];
      WordsAfterEnd(acc, cur);
    } else {
      var t := s[i..];
      assert t[0] == s[i] && t[1..] == s[i + 1..];
      if IsDelimiter(s[i]) {
        ScanWithoutQuotes(s, i + 1, [], Flush(acc, cur));
        WordsAfterDelimiter(acc, cur, t);
      } else {
        ScanWithoutQuotes(s, i + 1, cur + [s[i]], acc);
        WordsAfterLetter(cur, t);
      }
    }
  }

  /**
   * On a line without double quotes the tokens are exactly the maximal runs
   * of non-delimiter characters, in their original order.
   */
  lemma UnquotedLineSplitsIntoWords(s: string)
    requires Quote !in s
    ensures Split(s) == Ok(Words(s))
  {
    assert forall k :: 0 <= k < |s| ==> s[k] != Quote;
    ScanWithoutQuotes(s, 0, [], []);
    assert s[0..] == s;
    assert [] + Words(s) == Words(s);
  }

  lemma {:induction false} BlankHasNoWords(t: string)
    requires forall k :: 0 <= k < |t| ==> IsDelimiter(t[k])
    ensures Words(t) == []
  {
    if t != [] {
      BlankHasNoWords(t[1..]);
    }
  }

  /** An empty line, or one made only of delimiters, yields no token at all. */
  lemma BlankLineHasNoTokens(s: string)
    requires forall k :: 0 <= k < |s| ==> IsDelimiter(s[k])
    ensures Split(s) == Ok([])
  {
    assert forall k :: 0 <= k < |s| ==> s[k] != Quote;
    UnquotedLineSplitsIntoWords(s);
    BlankHasNoWords(s);
  }

  /** The number of double quotes in `t`. */
  function QuoteCount(t: string): nat
  {
    if t == [] then 0
    else QuoteCount(t[..|t| - 1]) + (if t[|t| - 1] == Quote then 1 else 0)
  }

  /**
   * The quote at `k` closes a quoted part (an odd number of quotes comes
   * before it) and is followed by a character that is not a delimiter.
   */
  predicate BadEndQuote(s: string, k: int)
  {
    0 <= k && k + 1 < |s| && s[k] == Quote && QuoteCount(s[..k]) % 2 == 1 && !IsDelimiter(s[k + 1])
  }

  lemma {:induction false} ScanErrors(s: string, i: nat, inQuotes: bool, cur: string, acc: seq<string>)
    requires i <= |s|
    requires inQuotes == (QuoteCount(s[..i]) % 2 == 1)
    ensures Scan(s, i, inQuotes, cur, acc) == Err(ExpectedDelimiter) <==>
      exists k :: i <= k && BadEndQuote(s, k)
    ensures Scan(s, i, inQuotes, cur, acc) == Err(UnexpectedEnd) <==>
      (forall k :: i <= k ==> !BadEndQuote(s, k)) && QuoteCount(s) % 2 == 1
    decreases |s| - i
  {
    if i == |s| {
      assert s[..i] == s;
    } else {
      assert s[..i + 1][..i] == s[..i];
      if s[i] == Quote {
        if inQuotes && i + 1 < |s| && !IsDelimiter(s[i + 1]) {
          assert BadEndQuote(s, i);
        } else {
          ScanErrors(s, i + 1, !inQuotes, cur, acc);
          assert !BadEndQuote(s, i);
        }
      } else if !IsDelimiter(s[i]) || inQuotes {
        ScanErrors(s, i + 1, inQuotes, cur + [s[i]], acc);
      } else {
        ScanErrors(s, i + 1, inQuotes, [], Flush(acc, cur));
      }
    }
  }

  /**
   * The parse errors, exactly: "Expected delimiter after end quote." when
   * some closing quote is followed by a non-delimiter (this is reported
   * first); otherwise "Parsing ended unexpectedly." when the quotes are
   * unbalanced; otherwise the line splits.
   */
  lemma SplitErrors(s: string)
    ensures Split(s) == Err(ExpectedDelimiter) <==> exists k :: BadEndQuote(s, k)
    ensures Split(s) == Err(UnexpectedEnd) <==>
      (forall k :: !BadEndQuote(s, k)) && QuoteCount(s) % 2 == 1
    ensures Split(s).Ok? <==> (forall k :: !BadEndQuote(s, k)) && QuoteCount(s) % 2 == 0
  {
    assert s[..0] == [];
    ScanErrors(s, 0, false, [], []);
    var r := Split(s);
    if r.Err? {
      assert r == Err(r.error);
      assert r.error == ExpectedDelimiter || r.error == UnexpectedEnd;
    }
  }

  /**
   * Between quotes every character but a quote, delimiters included, is
   * copied into the current token verbatim; outside quotes every
   * non-delimiter is. The token does not end inside such a run.
   */
  lemma {:induction false} ScanCopiesRun(s: string, i: nat, j: nat, inQuotes: bool, cur: string, acc: seq<string>)
    requires i <= j <= |s|
    requires CopiedVerbatim(s[i..j], inQuotes)
    ensures Scan(s, i, inQuotes, cur, acc) == Scan(s, j, inQuotes, cur + s[i..j], acc)
    decreases j - i
  {
    if i < j {
      assert s[i..j][0] == s[i] && s[i..j][1..] == s[i + 1..j];
      ScanCopiesRun(s, i + 1, j, inQuotes, cur + [s[i]], acc);
      assert cur + [s[i]] + s[i + 1..j] == cur + s[i..j];
    } else {
      assert cur + s[i..j] == cur;
    }
  }

  /** No character of `run` is a quote, nor (outside quotes) a delimiter. */
  predicate CopiedVerbatim(run: string, inQuotes: bool)
  {
    run == [] || (run[0] != Quote && (inQuotes || !IsDelimiter(run[0])) && CopiedVerbatim(run[1..], inQuotes))
  }

  /** `echo "a b" c` gives `echo`, `a b` and `c`. */
  lemma SplitsQuotedWords()
    ensures Split("echo \"a b\" c") == Ok(["echo", "a b", "c"])
  {
    var s := "echo \"a b\" c";
    QuotedWordsAfterEcho(s);
    assert s[0..4] == "echo" && CopiedVerbatim("echo", false);
    ScanCopiesRun(s, 0, 4, false, "", []);
    assert "" + s[0..4] == "echo";
    assert Split(s) == Scan(s, 4, false, "echo", []);
  }

  /** The rest of `echo "a b" c` once `echo` is read: the quoted word, then `c`. */
  lemma QuotedWordsAfterEcho(s: string)
    requires s == "echo \"a b\" c"
    ensures Scan(s, 4, false, "echo", []) == Ok(["echo", "a b", "c"])
  {
    var tokens := ["echo", "a b", "c"];
    assert |s| == 12 && s[6] == 'a' && s[7] == ' ' && s[8] == 'b';
    assert s[6..9] == "a b" && CopiedVerbatim("a b", true);
    assert Flush(["echo", "a b"], "c") == tokens;
    assert Flush(["echo"], "a b") == ["echo", "a b"];
    assert "" + [s[11]] == "c";
    assert Scan(s, 11, false, "", ["echo", "a b"]) == Ok(tokens);
    assert Scan(s, 9, true, "a b", ["echo"]) == Ok(tokens);
    ScanCopiesRun(s, 6, 9, true, "", ["echo"]);
    assert "" + s[6..9] == "a b";
    assert Flush([], "echo") == ["echo"];
    assert Scan(s, 5, false, "", ["echo"]) == Ok(tokens);
  }

  /** An opening quote does not end the token: `ab"c d"` gives the one token `abc d`. */
  lemma OpeningQuoteContinuesToken()
    ensures Split("ab\"c d\"") == Ok(["abc d"])
  {
    var s := "ab\"c d\"";
    assert s[3..6] == "c d" && s[0..2] == "ab";
    assert CopiedVerbatim("c d", true) && CopiedVerbatim("ab", false);
    assert "ab" + "c d" == "abc d" && Flush([], "abc d") == ["abc d"];
    assert |s| == 7 && Scan(s, 6, true, "abc d", []) == Ok(["abc d"]);
    ScanCopiesRun(s, 3, 6, true, "ab", []);
    assert Scan(s, 3, true, "ab", []) == Ok(["abc d"]);
    assert Scan(s, 2, false, "ab", []) == Ok(["abc d"]);
    ScanCopiesRun(s, 0, 2, false, "", []);
    assert "" + s[0..2] == "ab";
  }

  /** An empty quoted pair contributes no token: `"" x` gives only `x`. */
  lemma EmptyQuotesGiveNoToken()
    ensures Split("\"\" x") == Ok(["x"])
  {
    var s := "\"\" x";
    assert Flush([], "x") == ["x"];
    assert "" + [s[3]] == "x";
    assert Scan(s, 4, false, "x", []) == Ok(["x"]);
    assert Scan(s, 3, false, "", []) == Ok(["x"]);
    assert Scan(s, 2, false, "", []) == Ok(["x"]);
  }

  /** The parse errors on two short lines: an unterminated quote, and text right after an end quote. */
  lemma SplitErrorExamples()
    ensures Split("foo \"bar") == Err(UnexpectedEnd)
    ensures Split("foo \"bar\"baz") == Err(ExpectedDelimiter)
  {
  }
}
