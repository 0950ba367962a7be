/** Splitting a configured command line into a program and its arguments
    (src/runtime/unitup-adapter.ts, parseCommandString and its cache). */
module Tokenizer {

  datatype Option<+T> = None | Some(value: T)

  datatype Parsed = Parsed(command: string, args: Option<seq<string>>)

  const CACHE_LIMIT := 500

  /** JavaScript white space: the class `\s`, which is also what `trim` removes. */
  predicate IsSpace(c: char)
  {
    || c == ' ' || '\t' <= c <= '\r' || c == '\U{A0}' || c == '\U{1680}' || '\U{2000}' <= c <= '\U{200A}'
    || c == '\U{2028}' || c == '\U{2029}' || c == '\U{202F}' || c == '\U{205F}' || c == '\U{3000}' || c == '\U{FEFF}'
  }

  /** Characters that hand the whole line to `sh -c`. */
  predicate IsShellMeta(c: char)
  {
    c == '&' || c == '|' || c == ';' || c == '<' || c == '>'
  }

  /** The class `[^\s"']`. */
  predicate IsBare(c: char)
  {
    !IsSpace(c) && c != '"' && c != '\''
  }

  function TrimStart(s: string): string
  {
    if s != "" && IsSpace(s[0]) then TrimStart(s[1..]) else s
  }

  function TrimEnd(s: string): string
  {
    if s != "" && IsSpace(s[|s| - 1]) then TrimEnd(s[..|s| - 1]) else s
  }

  function Trim(s: string): string
  {
    TrimEnd(TrimStart(s))
  }

  /** First index at or after `from` holding `c`, or `|s|`. */
  function IndexOf(s: string, c: char, from: nat): (i: nat)
    requires from <= |s|
    ensures from <= i <= |s|
    decreases |s| - from
  {
    if from == |s| || s[from] == c then from else IndexOf(s, c, from + 1)
  }

  /** End of the run of bare characters that starts at `from`. */
  function BareEnd(s: string, from: nat): (i: nat)
    requires from <= |s|
    ensures from <= i <= |s|
    decreases |s| - from
  {
    if from == |s| || !IsBare(s[from]) then from else BareEnd(s, from + 1)
  }

  /** A match of the token expression: the token, and the index the next search starts from. */
  datatype Match = NoMatch | Match(token: string, lastIndex: nat)

  /** `regex.exec` from `lastIndex`: the leftmost bare run, "..." or '...'. An unclosed quote matches nothing. */
  function Exec(s: string, lastIndex: nat): (m: Match)
    requires lastIndex <= |s|
    ensures m.Match? ==> lastIndex < m.lastIndex <= |s|
    decreases |s| - lastIndex
  {
    if lastIndex == |s| then NoMatch
    else
      var c := s[lastIndex];
      if IsBare(c) then
        var end := BareEnd(s, lastIndex);
        Match(s[lastIndex..end], end)
      else if c == '"' || c == '\'' then
        var close := IndexOf(s, c, lastIndex + 1);
        if close < |s| then Match(s[lastIndex + 1..close], close + 1) else Exec(s, lastIndex + 1)
      else Exec(s, lastIndex + 1)
  }

  /** All tokens from `lastIndex` on. */
  function Tokens(s: string, lastIndex: nat): seq<string>
    requires lastIndex <= |s|
    decreases |s| - lastIndex
  {
    match Exec(s, lastIndex)
    case NoMatch => []
    case Match(token, next) => [token] + Tokens(s, next)
  }

  function FromTokens(trimmed: string, tokens: seq<string>): Parsed
  {
    if tokens == [] then Parsed(trimmed, None)
    else Parsed(tokens[0], if |tokens| > 1 then Some(tokens[1..]) else None)
  }

  /** The result for a command line, with no cache involved. */
  function Parse(command: string): Parsed
  {
    var trimmed := Trim(command);
    if trimmed == "" then Parsed("", None)
    else if exists i :: 0 <= i < |trimmed| && IsShellMeta(trimmed[i]) then Parsed("sh", Some(["-c", trimmed]))
    else FromTokens(trimmed, Tokens(trimmed, 0))
  }

  /** The module-level `COMMAND_CACHE`. */
  class CommandParser {
    var cache: map<string, Parsed>

    constructor ()
      ensures Transparent() && cache == map[]
    {
      cache := map[];
    }

    /** Every entry is the uncached result, so a hit is indistinguishable from a fresh parse. */
    ghost predicate Transparent()
      reads this
    {
      forall line :: line in cache ==> cache[line] == Parse(line)
    }

    method ParseCommandString(command: string) returns (res: Parsed)
      requires Transparent()
      modifies this
      ensures Transparent()
      ensures res == Parse(command)
      ensures old(cache.Keys) <= cache.Keys <= old(cache.Keys) + {command}
    {
      if command in cache {
        return cache[command];
      }
      var trimmed := Trim(command);
      if trimmed == "" {
        res := Parsed("", None);
        cache := cache[command := res];
        return;
      }
      if exists i :: 0 <= i < |trimmed| && IsShellMeta(trimmed[i]) {
        res := Parsed("sh", Some(["-c", trimmed]));
        cache := cache[command := res];
        return;
      }
      var tokens: seq<string> := [];
      var lastIndex := 0;
      var m := Exec(trimmed, lastIndex);
      while m.Match?
        invariant lastIndex <= |trimmed| && m == Exec(trimmed, lastIndex)
        invariant tokens + Tokens(trimmed, lastIndex) == Tokens(trimmed, 0)
        decreases |trimmed| - lastIndex
      {
        tokens := tokens + [m.token];
        lastIndex := m.lastIndex;
        m := Exec(trimmed, lastIndex);
      }
      assert tokens == Tokens(trimmed, 0);
      res := FromTokens(trimmed, tokens);
      if tokens == [] || |cache| < CACHE_LIMIT {
        cache := cache[command := res];
      }
    }
  }

  // Trimming, and lines for the shell

  lemma {:induction false} TrimStartSkips(blank: string, rest: string)
    requires (forall c :: c in blank ==> IsSpace(c)) && (rest == "" || !IsSpace(rest[0]))
    ensures TrimStart(blank + rest) == rest
  {
    if blank == "" {
      assert blank + rest == rest;
    } else {
      assert (blank + rest)[1..] == blank[1..] + rest && blank[0] in blank;
      TrimStartSkips(blank[1..], rest);
    }
  }

  lemma {:induction false} TrimEndSkips(rest: string, blank: string)
    requires (forall c :: c in blank ==> IsSpace(c)) && (rest == "" || !IsSpace(rest[|rest| - 1]))
    ensures TrimEnd(rest + blank) == rest
  {
    if blank == "" {
      assert rest + blank == rest;
    } else {
      assert (rest + blank)[..|rest + blank| - 1] == rest + blank[..|blank| - 1] && blank[|blank| - 1] in blank;
      TrimEndSkips(rest, blank[..|blank| - 1]);
    }
  }

  /** White space around a line does not matter. */
  lemma SpaceAroundDoesNotMatter(before: string, line: string, after: string)
    requires (forall c :: c in before ==> IsSpace(c)) && (forall c :: c in after ==> IsSpace(c))
    requires line != "" && !IsSpace(line[0]) && !IsSpace(line[|line| - 1])
    ensures Trim(before + line + after) == line && Parse(before + line + after) == Parse(line)
  {
    assert before + line + after == before + (line + after);
    TrimStartSkips(before, line + after);
    TrimEndSkips(line, after);
    assert Trim(line) == line;
  }

  lemma BlankLineIsEmpty(line: string)
    requires forall c :: c in line ==> IsSpace(c)
    ensures Parse(line) == Parsed("", None)
  {
    assert line + "" == line;
    TrimStartSkips(line, "");
  }

  /** A line with a control operator or a redirection goes to the shell as it is, but for white space around it. */
  lemma ShellLinesGoToShell(before: string, line: string, after: string, i: nat)
    requires (forall c :: c in before ==> IsSpace(c)) && (forall c :: c in after ==> IsSpace(c))
    requires line != "" && !IsSpace(line[0]) && !IsSpace(line[|line| - 1])
    requires i < |line| && line[i] in "&|;<>"
    ensures Parse(before + line + after) == Parsed("sh", Some(["-c", line]))
  {
    SpaceAroundDoesNotMatter(before, line, after);
    assert Trim(line) == line;
  }

  // Round trip

  datatype Style = Bare | DoubleQuoted | SingleQuoted

  /** A token, and how it is written. */
  datatype Word = Word(token: string, style: Style)

  function Write(w: Word): string
  {
    match w.style
    case Bare => w.token
    case DoubleQuoted => "\"" + w.token + "\""
    case SingleQuoted => "'" + w.token + "'"
  }

  /** The words of a line, separated by single spaces. */
  function Print(words: seq<Word>): (line: string)
    requires words != []
  {
    if |words| == 1 then Write(words[0]) else Write(words[0]) + " " + Print(words[1..])
  }

  /** What a style can carry to a directly spawned program: no shell characters, no quote of its own kind, and without
      quotes at least one character and neither spaces nor quotes. */
  predicate Writable(w: Word)
  {
    && (forall k :: 0 <= k < |w.token| ==> !IsShellMeta(w.token[k]))
    && match w.style
       case Bare => w.token != "" && forall k :: 0 <= k < |w.token| ==> IsBare(w.token[k])
       case DoubleQuoted => '"' !in w.token
       case SingleQuoted => '\'' !in w.token
  }

  ghost predicate AllWritable(words: seq<Word>)
  {
    forall w :: w in words ==> Writable(w)
  }

  lemma FirstWritable(words: seq<Word>)
    requires words != [] && AllWritable(words)
    ensures Writable(words[0]) && AllWritable(words[1..])
  {
  }

  function TokensOf(words: seq<Word>): seq<string>
  {
    if words == [] then [] else [words[0].token] + TokensOf(words[1..])
  }

  /** Parsing undoes printing: in any mix of the three styles, the program and every argument come back, empty quoted ones
      included. */
  lemma ParseInvertsPrint(words: seq<Word>)
    requires words != [] && AllWritable(words)
    ensures Parse(Print(words))
      == Parsed(words[0].token, if |words| > 1 then Some(TokensOf(words[1..])) else None)
  {
    var line := Print(words);
    PrintShape(words);
    assert line[0..] == line;
    assert [words[0]] + words[1..] == words;
    ScanPrinted(line, 0, line, words[0], words[1..]);
    ParseSolidLine(line, words[0].token, TokensOf(words[1..]));
    TokensCount(words[1..]);
  }

  /** A line without shell characters, and without white space around it, is its tokens. */
  lemma ParseSolidLine(line: string, command: string, args: seq<string>)
    requires line != "" && !IsSpace(line[0]) && !IsSpace(line[|line| - 1])
    requires (forall i :: 0 <= i < |line| ==> !IsShellMeta(line[i])) && Tokens(line, 0) == [command] + args
    ensures Parse(line) == Parsed(command, if args != [] then Some(args) else None)
  {
    SolidLineIsTrimmed(line);
    assert ([command] + args)[1..] == args;
  }

  lemma {:induction false} TokensCount(words: seq<Word>)
    ensures |TokensOf(words)| == |words|
  {
    if words != [] {
      TokensCount(words[1..]);
    }
  }

  lemma SolidLineIsTrimmed(line: string)
    requires line != "" && !IsSpace(line[0]) && !IsSpace(line[|line| - 1])
    ensures Trim(line) == line
  {
  }

  lemma WriteShape(w: Word)
    requires Writable(w)
    ensures var text := Write(w);
      && text != "" && !IsSpace(text[0]) && !IsSpace(text[|text| - 1])
      && forall i :: 0 <= i < |text| ==> !IsShellMeta(text[i])
  {
    assert w.style.Bare? ==> IsBare(w.token[0]) && IsBare(w.token[|w.token| - 1]);
    assert !IsSpace('"') && !IsSpace('\'') && !IsShellMeta('"') && !IsShellMeta('\'');
  }

  /** A printed line has no white space at its ends, and no shell characters. */
  lemma {:induction false} PrintShape(words: seq<Word>)
    requires words != [] && AllWritable(words)
    ensures var line := Print(words);
      && line != "" && !IsSpace(line[0]) && !IsSpace(line[|line| - 1])
      && forall i :: 0 <= i < |line| ==> !IsShellMeta(line[i])
  {
    WriteShape(words[0]);
    if |words| > 1 {
      PrintShape(words[1..]);
      JoinShape(Write(words[0]), Print(words[1..]));
    }
  }

  lemma JoinShape(a: string, b: string)
    requires a != "" && !IsSpace(a[0]) && forall i :: 0 <= i < |a| ==> !IsShellMeta(a[i])
    requires b != "" && !IsSpace(b[|b| - 1]) && forall i :: 0 <= i < |b| ==> !IsShellMeta(b[i])
    ensures var line := a + " " + b;
      && line != "" && !IsSpace(line[0]) && !IsSpace(line[|line| - 1])
      && forall i :: 0 <= i < |line| ==> !IsShellMeta(line[i])
  {
    assert !IsShellMeta(' ');
  }

  lemma {:induction false} IndexOfFirst(s: string, c: char, from: nat, i: nat)
    requires from <= i < |s| && s[i] == c && forall k :: from <= k < i ==> s[k] != c
    ensures IndexOf(s, c, from) == i
    decreases i - from
  {
    if from < i {
      IndexOfFirst(s, c, from + 1, i);
    }
  }

  lemma {:induction false} BareEndFirst(s: string, from: nat, i: nat)
    requires from <= i <= |s| && (forall k :: from <= k < i ==> IsBare(s[k])) && (i < |s| ==> !IsBare(s[i]))
    ensures BareEnd(s, from) == i
    decreases i - from
  {
    if from < i {
      BareEndFirst(s, from + 1, i);
    }
  }

  lemma SplitAt(s: string, at: nat, head: string, tail: string)
    requires at <= |s| && s[at..] == head + tail
    ensures at + |head| <= |s| && s[at..at + |head|] == head && s[at + |head|..] == tail
  {
    assert s[at..at + |head|] == s[at..][..|head|];
    assert s[at + |head|..] == s[at..][|head|..];
  }

  /** At an opening quote, the next match is everything up to the closing one. */
  lemma ExecAtQuote(s: string, at: nat, quote: char, token: string)
    requires (quote == '"' || quote == '\'') && quote !in token
    requires at + |token| + 2 <= |s| && s[at..at + |token| + 2] == [quote] + token + [quote]
    ensures Exec(s, at) == Match(token, at + |token| + 2)
  {
    var close := at + 1 + |token|;
    var quoted := s[at..close + 1];
    assert s[at] == quoted[0] && s[close] == quoted[|token| + 1];
    assert forall k :: at + 1 <= k < close ==> s[k] == quoted[k - at] == token[k - at - 1];
    assert s[at + 1..close] == token;
    IndexOfFirst(s, quote, at + 1, close);
  }

  /** At a bare character, the next match is everything up to white space, a quote or the end. */
  lemma ExecAtBare(s: string, at: nat, token: string)
    requires token != "" && forall k :: 0 <= k < |token| ==> IsBare(token[k])
    requires at + |token| <= |s| && s[at..at + |token|] == token
    requires at + |token| < |s| ==> !IsBare(s[at + |token|])
    ensures Exec(s, at) == Match(token, at + |token|)
  {
    assert forall k :: at <= k < at + |token| ==> s[k] == token[k - at];
    BareEndFirst(s, at, at + |token|);
  }

  /** A written word at the end of a line, or before a space, is the next match. */
  lemma ExecAtWord(s: string, at: nat, w: Word, tail: string)
    requires Writable(w) && at <= |s| && s[at..] == Write(w) + tail && (tail == "" || tail[0] == ' ')
    ensures at + |Write(w)| <= |s| && s[at + |Write(w)|..] == tail && Exec(s, at) == Match(w.token, at + |Write(w)|)
  {
    SplitAt(s, at, Write(w), tail);
    var next := at + |Write(w)|;
    assert next < |s| ==> s[next] == s[next..][0] == ' ';
    match w.style
    case Bare => ExecAtBare(s, at, w.token);
    case DoubleQuoted => ExecAtQuote(s, at, '"', w.token);
    case SingleQuoted => ExecAtQuote(s, at, '\'', w.token);
  }

  lemma ScanWord(s: string, at: nat, w: Word, tail: string)
    requires Writable(w) && at <= |s| && s[at..] == Write(w) + tail && (tail == "" || tail[0] == ' ')
    ensures var next := at + |Write(w)|;
      next <= |s| && s[next..] == tail && Tokens(s, at) == [w.token] + Tokens(s, next)
  {
    WriteShape(w);
    ExecAtWord(s, at, w, tail);
  }

  lemma NothingLeft(s: string, next: nat)
    requires next <= |s| && s[next..] == ""
    ensures Tokens(s, next) == []
  {
    assert next == |s|;
  }

  lemma SkipSpace(s: string, next: nat, tail: string)
    requires next <= |s| && s[next..] == " " + tail
    ensures next < |s| && s[next + 1..] == tail
    ensures Tokens(s, next) == Tokens(s, next + 1)
  {
    SplitAt(s, next, " ", tail);
    assert s[next] == s[next..][0] == ' ';
    assert Exec(s, next) == Exec(s, next + 1);
  }

  lemma ScanLast(s: string, at: nat, w: Word)
    requires Writable(w) && at <= |s| && s[at..] == Write(w)
    ensures Tokens(s, at) == [w.token]
  {
    assert Write(w) + "" == Write(w);
    ScanWord(s, at, w, "");
    NothingLeft(s, at + |Write(w)|);
  }

  lemma ScanStep(s: string, at: nat, w: Word, more: string) returns (next: nat)
    requires Writable(w) && at <= |s| && s[at..] == Write(w) + " " + more
    ensures next <= |s| && s[next..] == more && Tokens(s, at) == [w.token] + Tokens(s, next)
  {
    next := at + |Write(w)| + 1;
    assert Write(w) + " " + more == Write(w) + (" " + more);
    ScanWord(s, at, w, " " + more);
    SkipSpace(s, at + |Write(w)|, more);
  }

  lemma PrintParts(w: Word, rest: seq<Word>)
    requires AllWritable([w] + rest)
    ensures Writable(w) && AllWritable(rest)
    ensures Print([w] + rest) == if rest == [] then Write(w) else Write(w) + " " + Print(rest)
    ensures TokensOf([w] + rest) == [w.token] + TokensOf(rest)
  {
    assert ([w] + rest)[1..] == rest;
    FirstWritable([w] + rest);
  }

  /** Scanning from the start of a printed line yields exactly its tokens. */
  lemma {:induction false} ScanPrinted(s: string, at: nat, line: string, w: Word, rest: seq<Word>)
    requires AllWritable([w] + rest) && line == Print([w] + rest)
    requires at <= |s| && s[at..] == line
    ensures Tokens(s, at) == TokensOf([w] + rest)
    decreases |rest|
  {
    PrintParts(w, rest);
    if rest == [] {
      ScanLast(s, at, w);
    } else {
      assert [rest[0]] + rest[1..] == rest;
      var more := Print(rest);
      var next := ScanStep(s, at, w, more);
      ScanPrinted(s, next, more, rest[0], rest[1..]);
    }
  }

  /** A quote that is never closed is skipped: the scan goes on behind it as if it were a space. */
  lemma UnclosedQuoteIsSkipped(s: string, at: nat)
    requires at < |s| && (s[at] == '"' || s[at] == '\'') && s[at] !in s[at + 1..]
    ensures Tokens(s, at) == Tokens(s, at + 1)
  {
    NeverFound(s, s[at], at + 1);
    assert Exec(s, at) == Exec(s, at + 1);
  }

  lemma {:induction false} NeverFound(s: string, c: char, from: nat)
    requires from <= |s| && c !in s[from..]
    ensures IndexOf(s, c, from) == |s|
    decreases |s| - from
  {
    if from < |s| {
      assert s[from..][0] == s[from] && s[from + 1..] == s[from..][1..];
      NeverFound(s, c, from + 1);
    }
  }
}
