/** Exclusion of paths when a built workspace is mirrored into the live directory
    (src/deployment/workspace-sync.ts). Paths are relative to the sync root, with '/' separators. */
module SyncExclude {

  datatype Option<+T> = None | Some(value: T)

  const DEFAULT_SYNC_EXCLUDES: seq<string> := [".git", ".env", ".env.*"]

  predicate IsSpace(c: char)
  {
    || c in "\t\n\r \U{0B}\U{0C}\U{A0}\U{1680}\U{2028}\U{2029}\U{202F}\U{205F}\U{3000}\U{FEFF}"
    || '\U{2000}' <= c <= '\U{200A}'
  }

  predicate IsSlash(c: char)
  {
    c == '/'
  }

  function DropFront(s: string, drop: char -> bool): string
  {
    if s != "" && drop(s[0]) then DropFront(s[1..], drop) else s
  }

  function DropBack(s: string, drop: char -> bool): string
  {
    if s != "" && drop(s[|s| - 1]) then DropBack(s[..|s| - 1], drop) else s
  }

  function Strip(s: string, drop: char -> bool): string
  {
    DropBack(DropFront(s, drop), drop)
  }

  function NormalizePattern(pattern: string): string
  {
    Strip(Strip(pattern, IsSpace), IsSlash)
  }

  // Segment patterns

  /** One item of the regular expression built from a glob: a character, an optional character, or `[^/]*`. */
  datatype Item = One(c: char) | Maybe(c: char) | Run

  /** Number of question marks at the front. */
  function Questions(s: string): (n: nat)
    ensures n <= |s|
  {
    if s != "" && s[0] == '?' then 1 + Questions(s[1..]) else 0
  }

  /** `globToRegExp`. The question mark is not escaped, so it quantifies what precedes it;
      None is the SyntaxError of a question mark with nothing left to quantify. */
  function GlobToRegExp(glob: string): Option<seq<Item>>
    decreases |glob|
  {
    if glob == "" then Some([])
    else
      var c, q := glob[0], Questions(glob[1..]);
      if Unquantifiable(c, q) then None
      else
        match GlobToRegExp(glob[1 + q..])
        case None => None
        case Some(items) => Some([ItemOf(c, q)] + items)
  }

  predicate Unquantifiable(c: char, q: nat)
  {
    c == '?' || q > if c == '*' then 1 else 2
  }

  function ItemOf(c: char, q: nat): Item
  {
    if c == '*' then Run else if q == 0 then One(c) else Maybe(c)
  }

  /** `re.test(segment)`: the whole segment matches. */
  predicate Test(items: seq<Item>, segment: string)
    decreases |items| + |segment|
  {
    if items == [] then segment == ""
    else match items[0]
      case One(c) => segment != "" && segment[0] == c && Test(items[1..], segment[1..])
      case Maybe(c) =>
        || Test(items[1..], segment)
        || (segment != "" && segment[0] == c && Test(items[1..], segment[1..]))
      case Run =>
        || Test(items[1..], segment)
        || (segment != "" && segment[0] != '/' && Test(items, segment[1..]))
  }

  // What a pattern means

  /** Wildcard matching: `*` stands for any stretch without a separator, every other character for itself. */
  ghost predicate Wild(glob: string, segment: string)
    decreases |glob|
  {
    if glob == "" then segment == ""
    else if glob[0] == '*' then exists k: nat :: StretchTo(segment, k) && Wild(glob[1..], segment[k..])
    else segment != "" && segment[0] == glob[0] && Wild(glob[1..], segment[1..])
  }

  predicate StretchTo(segment: string, k: nat)
  {
    k <= |segment| && '/' !in segment[..k]
  }

  /** `[^/]*` matches a stretch. */
  lemma {:induction false} RunIsStretch(items: seq<Item>, segment: string)
    ensures Test([Run] + items, segment) <==> exists k: nat :: StretchTo(segment, k) && Test(items, segment[k..])
    decreases |segment|
  {
    assert ([Run] + items)[1..] == items;
    assert segment[0..] == segment && StretchTo(segment, 0);
    if segment != "" {
      RunIsStretch(items, segment[1..]);
      if segment[0] != '/' && Test([Run] + items, segment[1..]) {
        var k: nat :| StretchTo(segment[1..], k) && Test(items, segment[1..][k..]);
        LongerStretch(segment, k);
      }
      if k: nat :| 0 < k && StretchTo(segment, k) && Test(items, segment[k..]) {
        LongerStretch(segment, k - 1);
      }
    }
  }

  lemma LongerStretch(segment: string, k: nat)
    requires segment != ""
    ensures StretchTo(segment, k + 1) <==> segment[0] != '/' && StretchTo(segment[1..], k)
    ensures k + 1 <= |segment| ==> segment[1..][k..] == segment[k + 1..]
  {
    if k + 1 <= |segment| {
      assert segment[..k + 1] == [segment[0]] + segment[1..][..k];
    }
  }

  /** Without a question mark the regular expression exists, and matches exactly what the wildcards say. */
  lemma {:induction false} PlainGlobIsWildcard(glob: string, segment: string)
    requires '?' !in glob
    ensures GlobToRegExp(glob).Some? && (Test(GlobToRegExp(glob).value, segment) <==> Wild(glob, segment))
    decreases |glob|
  {
    if glob != "" {
      var rest := glob[1..];
      NoQuestions(rest);
      assert glob[0] in glob && glob[1 + 0..] == rest;
      PlainGlobIsWildcard(rest, "");
      var items := GlobToRegExp(rest).value;
      if glob[0] == '*' {
        RunIsStretch(items, segment);
        forall k: nat | StretchTo(segment, k)
          ensures Test(items, segment[k..]) <==> Wild(rest, segment[k..])
        {
          PlainGlobIsWildcard(rest, segment[k..]);
        }
      } else {
        assert ([One(glob[0])] + items)[1..] == items;
        if segment != "" {
          PlainGlobIsWildcard(rest, segment[1..]);
        }
      }
    }
  }

  lemma NoQuestions(glob: string)
    requires '?' !in glob
    ensures Questions(glob) == 0
  {
    if glob != "" {
      assert glob[0] in glob;
    }
  }

  /** The run of question marks at the front is as long as possible. */
  lemma {:induction false} QuestionsAreAll(s: string)
    ensures forall i :: 0 <= i < Questions(s) ==> s[i] == '?'
    ensures Questions(s) < |s| ==> s[Questions(s)] != '?'
  {
    if s != "" && s[0] == '?' {
      QuestionsAreAll(s[1..]);
    }
  }

  predicate StartsQuestion(s: string)
  {
    s != "" && s[0] == '?'
  }

  /** A character with more question marks behind it than a quantifier and its laziness mark can use: two for `*`, which
      is a quantifier itself, and three for any other. */
  predicate Overquantified(glob: string, i: nat)
  {
    i < |glob| && glob[i] != '?' && (if glob[i] == '*' then "??" else "???") <= glob[i + 1..]
  }

  lemma OverquantifiedByCount(glob: string)
    requires glob != "" && glob[0] != '?'
    ensures Overquantified(glob, 0) <==> Questions(glob[1..]) > if glob[0] == '*' then 1 else 2
  {
    var rest := glob[1..];
    var many := if glob[0] == '*' then "??" else "???";
    QuestionsAreAll(rest);
    if many <= rest {
      assert forall i :: 0 <= i < |many| ==> rest[i] == many[i];
    }
    if Questions(rest) >= |many| {
      assert rest[..|many|] == many;
    }
  }

  lemma OverquantifiedLater(glob: string, q: nat, j: nat)
    requires 1 + q <= |glob|
    ensures Overquantified(glob[1 + q..], j) <==> Overquantified(glob, 1 + q + j)
  {
    if j < |glob[1 + q..]| {
      assert glob[1 + q..][j + 1..] == glob[1 + q + j + 1..];
    }
  }

  /** A pattern is a syntax error exactly when it begins with a question mark or has too many of them somewhere. */
  lemma {:induction false} BadGlobs(glob: string)
    ensures GlobToRegExp(glob).None? <==> StartsQuestion(glob) || exists i: nat :: Overquantified(glob, i)
    decreases |glob|
  {
    if glob != "" && glob[0] != '?' {
      var q := Questions(glob[1..]);
      var rest := glob[1 + q..];
      BadGlobs(rest);
      OverquantifiedByCount(glob);
      RestStartsFresh(glob);
      if i: nat :| Overquantified(glob, i) && i != 0 {
        PastQuestions(glob, i);
        OverquantifiedLater(glob, q, i - 1 - q);
      }
      if j: nat :| Overquantified(rest, j) {
        OverquantifiedLater(glob, q, j);
      }
    }
  }

  lemma RestStartsFresh(glob: string)
    requires glob != ""
    ensures !StartsQuestion(glob[1 + Questions(glob[1..])..])
  {
    QuestionsAreAll(glob[1..]);
  }

  lemma PastQuestions(glob: string, i: nat)
    requires glob != "" && 0 < i < |glob| && glob[i] != '?'
    ensures i >= 1 + Questions(glob[1..])
  {
    QuestionsAreAll(glob[1..]);
    assert glob[1..][i - 1] == glob[i];
  }

  lemma {:induction false} QuestionsOfAppend(a: string, b: string)
    requires !StartsQuestion(b)
    ensures Questions(a + b) == Questions(a)
  {
    if a == "" {
      assert a + b == b;
    } else {
      assert (a + b)[1..] == a[1..] + b;
      QuestionsOfAppend(a[1..], b);
    }
  }

  /** A pattern may be cut anywhere but before a question mark. */
  lemma {:induction false} GlobAppend(a: string, b: string)
    requires !StartsQuestion(b)
    ensures GlobToRegExp(a + b) ==
      if GlobToRegExp(a).Some? && GlobToRegExp(b).Some? then Some(GlobToRegExp(a).value + GlobToRegExp(b).value) else None
    decreases |a|
  {
    if a == "" {
      assert a + b == b;
      if GlobToRegExp(b).Some? {
        assert [] + GlobToRegExp(b).value == GlobToRegExp(b).value;
      }
    } else {
      var q := Questions(a[1..]);
      assert (a + b)[1..] == a[1..] + b;
      QuestionsOfAppend(a[1..], b);
      assert (a + b)[1 + q..] == a[1 + q..] + b;
      GlobAppend(a[1 + q..], b);
      if GlobToRegExp(a[1 + q..]).Some? && GlobToRegExp(b).Some? {
        ItemsAppend(ItemOf(a[0], q), GlobToRegExp(a[1 + q..]).value, GlobToRegExp(b).value);
      }
    }
  }

  lemma ItemsAppend(item: Item, xs: seq<Item>, ys: seq<Item>)
    ensures [item] + (xs + ys) == [item] + xs + ys
  {
  }

  /** A piece that may be left out, between any others. */
  lemma {:induction false} MaybeIsEither(before: seq<Item>, c: char, after: seq<Item>, segment: string)
    ensures Test(before + ([Maybe(c)] + after), segment) <==>
      Test(before + after, segment) || Test(before + ([One(c)] + after), segment)
    decreases |before| + |segment|
  {
    if before == [] {
      assert before + ([Maybe(c)] + after) == [Maybe(c)] + after && before + after == after;
      assert before + ([One(c)] + after) == [One(c)] + after;
      assert ([Maybe(c)] + after)[1..] == after && ([One(c)] + after)[1..] == after;
    } else {
      var rest := before[1..];
      assert (before + ([Maybe(c)] + after))[1..] == rest + ([Maybe(c)] + after);
      assert (before + after)[1..] == rest + after;
      assert (before + ([One(c)] + after))[1..] == rest + ([One(c)] + after);
      MaybeIsEither(rest, c, after, segment);
      if segment != "" {
        MaybeIsEither(rest, c, after, segment[1..]);
        MaybeIsEither(before, c, after, segment[1..]);
      }
    }
  }

  predicate Matches(glob: string, segment: string)
  {
    GlobToRegExp(glob).Some? && Test(GlobToRegExp(glob).value, segment)
  }

  lemma QuestionedPiece(c: char, marks: string, after: string)
    requires c != '?' && c != '*' && (marks == "?" || marks == "??") && !StartsQuestion(after)
    ensures GlobToRegExp([c] + marks + after) ==
      if GlobToRegExp(after).Some? then Some([Maybe(c)] + GlobToRegExp(after).value) else None
  {
    var glob := [c] + marks + after;
    assert glob[1..] == marks + after;
    QuestionsOfAppend(marks, after);
    assert Questions(marks) == |marks| by {
      if marks == "??" {
        assert marks[1..] == "?";
      }
      assert "?"[1..] == "";
    }
    assert glob[1 + |marks|..] == after;
  }

  /** What a question mark does: the character before it, wherever it stands, may be left out. It never stands for a
      character of its own, and a second one changes nothing. */
  lemma QuestionMarkIsAQuantifier(before: string, c: char, marks: string, after: string, segment: string)
    requires c != '?' && c != '*' && (marks == "?" || marks == "??") && !StartsQuestion(after)
    ensures GlobToRegExp(before + ([c] + marks + after)).Some? <==> GlobToRegExp(before + after).Some?
    ensures Matches(before + ([c] + marks + after), segment) <==>
      Matches(before + after, segment) || Matches(before + ([c] + after), segment)
  {
    GlobAppend(before, [c] + marks + after);
    GlobAppend(before, after);
    GlobAppend(before, [c] + after);
    QuestionedPiece(c, marks, after);
    assert ([c] + after)[1..] == after && Questions(after) == 0;
    assert GlobToRegExp([c] + after) ==
      if GlobToRegExp(after).Some? then Some([One(c)] + GlobToRegExp(after).value) else None;
    if GlobToRegExp(before).Some? && GlobToRegExp(after).Some? {
      MaybeIsEither(GlobToRegExp(before).value, c, GlobToRegExp(after).value, segment);
    }
  }

  /** After a `*` a question mark changes nothing. */
  lemma QuestionAfterStar(before: string, after: string)
    requires !StartsQuestion(after)
    ensures GlobToRegExp(before + ("*?" + after)) == GlobToRegExp(before + ("*" + after))
  {
    var lazy, greedy := "*?" + after, "*" + after;
    GlobAppend(before, lazy);
    GlobAppend(before, greedy);
    assert lazy[1..] == "?" + after && "?"[1..] == "";
    QuestionsOfAppend("?", after);
    assert lazy[2..] == after && greedy[1..] == after && Questions(after) == 0;
  }

  // Paths

  /** `path.split('/')`. */
  function Split(path: string): (segments: seq<string>)
    ensures |segments| > 0
  {
    if path == "" then [""]
    else
      var rest := Split(path[1..]);
      if path[0] == '/' then [""] + rest else [[path[0]] + rest[0]] + rest[1..]
  }

  lemma {:induction false} SplitBelow(path: string, below: string)
    ensures Split(path + "/" + below) == Split(path) + Split(below)
  {
    var whole := path + "/" + below;
    if path == "" {
      assert whole[1..] == below;
    } else {
      assert whole[1..] == path[1..] + "/" + below;
      SplitBelow(path[1..], below);
    }
  }

  /** What the filter does with one path: the last case is the SyntaxError escaping from it. */
  datatype Verdict = Excluded | Included | BadPattern

  function MatchPattern(rel: string, raw: string): Verdict
  {
    var pattern := NormalizePattern(raw);
    if pattern == "" then Included
    else if '/' in pattern then
      if rel == pattern || pattern + "/" <= rel then Excluded else Included
    else match GlobToRegExp(pattern)
      case None => BadPattern
      case Some(items) =>
        if exists i :: 0 <= i < |Split(rel)| && Test(items, Split(rel)[i]) then Excluded else Included
  }

  /** The first pattern that excludes the path, or throws, decides. */
  function Judge(rel: string, patterns: seq<string>): Verdict
  {
    if rel == "" || patterns == [] then Included
    else match MatchPattern(rel, patterns[0])
      case Included => Judge(rel, patterns[1..])
      case decided => decided
  }

  method IsSyncExcluded(rel: string, patterns: seq<string>) returns (verdict: Verdict)
    ensures verdict == Judge(rel, patterns)
  {
    if rel == "" {
      return Included;
    }
    var segments := Split(rel);
    for i := 0 to |patterns|
      invariant Judge(rel, patterns) == Judge(rel, patterns[i..])
    {
      assert patterns[i..][1..] == patterns[i + 1..];
      var pattern := NormalizePattern(patterns[i]);
      if pattern == "" {
        continue;
      }
      if '/' in pattern {
        if rel == pattern || pattern + "/" <= rel {
          return Excluded;
        }
      } else {
        var re := GlobToRegExp(pattern);
        if re.None? {
          return BadPattern;
        }
        if exists k :: 0 <= k < |segments| && Test(re.value, segments[k]) {
          return Excluded;
        }
      }
    }
    verdict := Included;
  }

  ghost predicate AnyWild(glob: string, segments: seq<string>)
  {
    exists i :: 0 <= i < |segments| && Wild(glob, segments[i])
  }

  /** A pattern without a separator and without a question mark excludes a path exactly when it matches one of its
      segments as wildcards do. */
  lemma PlainPatternIsWildcard(rel: string, raw: string)
    requires var pattern := NormalizePattern(raw); pattern != "" && '/' !in pattern && '?' !in pattern
    ensures MatchPattern(rel, raw) == if AnyWild(NormalizePattern(raw), Split(rel)) then Excluded else Included
  {
    var pattern, segments := NormalizePattern(raw), Split(rel);
    PlainGlobIsWildcard(pattern, "");
    var items := GlobToRegExp(pattern).value;
    forall i | 0 <= i < |segments|
      ensures Test(items, segments[i]) <==> Wild(pattern, segments[i])
    {
      PlainGlobIsWildcard(pattern, segments[i]);
    }
    if i :| 0 <= i < |segments| && Test(items, segments[i]) {
      assert Wild(pattern, segments[i]);
      assert AnyWild(pattern, segments);
    } else {
      assert !AnyWild(pattern, segments);
    }
  }

  lemma PatternExcludesBelow(rel: string, below: string, raw: string)
    requires MatchPattern(rel, raw) == Excluded
    ensures MatchPattern(rel + "/" + below, raw) == Excluded
  {
    var pattern := NormalizePattern(raw);
    var deeper := rel + "/" + below;
    if '/' in pattern {
      if rel == pattern {
        assert deeper[..|pattern| + 1] == pattern + "/";
      } else {
        assert deeper[..|pattern| + 1] == rel[..|pattern| + 1] == pattern + "/";
      }
    } else {
      SplitBelow(rel, below);
      var items := GlobToRegExp(pattern).value;
      var i :| 0 <= i < |Split(rel)| && Test(items, Split(rel)[i]);
      assert Split(deeper)[i] == Split(rel)[i];
    }
  }

  lemma PatternBelow(rel: string, below: string, raw: string)
    ensures MatchPattern(rel + "/" + below, raw) == BadPattern <==> MatchPattern(rel, raw) == BadPattern
  {
  }

  /** Excluding a directory excludes everything under it. */
  lemma {:induction false} ExclusionIsDownwardClosed(rel: string, below: string, patterns: seq<string>)
    requires Judge(rel, patterns) == Excluded
    ensures Judge(rel + "/" + below, patterns) == Excluded
  {
    if MatchPattern(rel, patterns[0]) == Excluded {
      PatternExcludesBelow(rel, below, patterns[0]);
    } else {
      PatternBelow(rel, below, patterns[0]);
      ExclusionIsDownwardClosed(rel, below, patterns[1..]);
    }
  }

  /** Segments joined by separators. */
  function Join(segments: seq<string>): string
    requires |segments| > 0
  {
    if |segments| == 1 then segments[0] else segments[0] + "/" + Join(segments[1..])
  }

  lemma {:induction false} JoinSplit(path: string)
    ensures Join(Split(path)) == path
  {
    if path != "" {
      JoinSplit(path[1..]);
      var rest := Split(path[1..]);
      if path[0] == '/' {
        assert ([""] + rest)[1..] == rest;
      } else {
        assert ([[path[0]] + rest[0]] + rest[1..])[1..] == rest[1..];
      }
    }
  }

  lemma {:induction false} JoinAppend(a: seq<string>, b: seq<string>)
    requires |a| > 0 && |b| > 0
    ensures Join(a + b) == Join(a) + "/" + Join(b)
  {
    assert (a + b)[1..] == a[1..] + b;
    if |a| > 1 {
      JoinAppend(a[1..], b);
      assert a[0] + "/" + (Join(a[1..]) + "/" + Join(b)) == (a[0] + "/" + Join(a[1..])) + "/" + Join(b);
    }
  }

  lemma PrefixSplits(pattern: string, rel: string)
    requires rel == pattern || pattern + "/" <= rel
    ensures Split(pattern) <= Split(rel)
  {
    if rel != pattern {
      var below := rel[|pattern| + 1..];
      assert rel == pattern + "/" + below;
      SplitBelow(pattern, below);
    }
  }

  lemma SplitPrefixes(pattern: string, rel: string)
    requires Split(pattern) <= Split(rel)
    ensures rel == pattern || pattern + "/" <= rel
  {
    JoinSplit(pattern);
    JoinSplit(rel);
    var first, below := Split(pattern), Split(rel)[|Split(pattern)|..];
    JoinPrefix(first, below, Split(rel));
  }

  lemma JoinPrefix(first: seq<string>, below: seq<string>, all: seq<string>)
    requires |first| > 0 && all == first + below
    ensures |all| > 0 && (Join(all) == Join(first) || Join(first) + "/" <= Join(all))
  {
    if below == [] {
      assert all == first;
    } else {
      JoinAppend(first, below);
    }
  }

  /** A pattern with a separator excludes a path exactly when its segments are the first ones of the path. */
  lemma RootedPatternIsPrefix(rel: string, raw: string)
    requires '/' in NormalizePattern(raw)
    ensures MatchPattern(rel, raw) == if Split(NormalizePattern(raw)) <= Split(rel) then Excluded else Included
  {
    var pattern := NormalizePattern(raw);
    if rel == pattern || pattern + "/" <= rel {
      PrefixSplits(pattern, rel);
    }
    if Split(pattern) <= Split(rel) {
      SplitPrefixes(pattern, rel);
    }
  }

  // Normal forms

  lemma {:induction false} DropAllFront(a: string, rest: string, drop: char -> bool)
    requires (forall c :: c in a ==> drop(c)) && (rest == "" || !drop(rest[0]))
    ensures DropFront(a + rest, drop) == rest
  {
    if a == "" {
      assert a + rest == rest;
    } else {
      assert (a + rest)[1..] == a[1..] + rest && a[0] in a;
      DropAllFront(a[1..], rest, drop);
    }
  }

  lemma {:induction false} DropAllBack(rest: string, a: string, drop: char -> bool)
    requires (forall c :: c in a ==> drop(c)) && (rest == "" || !drop(rest[|rest| - 1]))
    ensures DropBack(rest + a, drop) == rest
  {
    if a == "" {
      assert rest + a == rest;
    } else {
      assert (rest + a)[..|rest + a| - 1] == rest + a[..|a| - 1] && a[|a| - 1] in a;
      DropAllBack(rest, a[..|a| - 1], drop);
    }
  }

  lemma StripAround(a: string, core: string, b: string, drop: char -> bool)
    requires (forall c :: c in a ==> drop(c)) && (forall c :: c in b ==> drop(c))
    requires core != "" && !drop(core[0]) && !drop(core[|core| - 1])
    ensures Strip(a + core + b, drop) == core
  {
    assert a + core + b == a + (core + b);
    DropAllFront(a, core + b, drop);
    DropAllBack(core, b, drop);
  }

  /** White space around a pattern, and separators within it at both ends, do not matter. */
  lemma SurroundingsDoNotMatter(spaces: string, slashes: string, core: string, slashes': string, spaces': string)
    requires forall c :: c in spaces + spaces' ==> IsSpace(c)
    requires forall c :: c in slashes + slashes' ==> c == '/'
    requires core != "" && !IsSpace(core[0]) && core[0] != '/' && !IsSpace(core[|core| - 1]) && core[|core| - 1] != '/'
    ensures NormalizePattern(spaces + (slashes + core + slashes') + spaces') == core
  {
    var inner := slashes + core + slashes';
    assert forall c :: c in spaces ==> c in spaces + spaces';
    assert forall c :: c in spaces' ==> c in spaces + spaces';
    assert forall c :: c in slashes ==> c in slashes + slashes';
    assert forall c :: c in slashes' ==> c in slashes + slashes';
    assert !IsSpace('/');
    assert !IsSpace(inner[0]) by {
      assert slashes != "" ==> inner[0] == slashes[0] && slashes[0] in slashes;
    }
    assert !IsSpace(inner[|inner| - 1]) by {
      assert slashes' != "" ==> inner[|inner| - 1] == slashes'[|slashes'| - 1] && slashes'[|slashes'| - 1] in slashes';
    }
    StripAround(spaces, inner, spaces', IsSpace);
    StripAround(slashes, core, slashes', IsSlash);
  }

  // The defaults

  lemma PlainNameNormal(name: string)
    requires name != "" && !IsSpace(name[0]) && name[0] != '/' && !IsSpace(name[|name| - 1]) && name[|name| - 1] != '/'
    ensures NormalizePattern(name) == name
  {
    assert "" + ("" + name + "") + "" == name;
    SurroundingsDoNotMatter("", "", name, "", "");
  }

  lemma {:induction false} WildLiteral(glob: string, segment: string)
    requires '*' !in glob
    ensures Wild(glob, segment) <==> segment == glob
  {
    if glob != "" {
      assert glob[0] in glob && forall c :: c in glob[1..] ==> c in glob;
      if segment != "" {
        WildLiteral(glob[1..], segment[1..]);
        assert glob == [glob[0]] + glob[1..] && segment == [segment[0]] + segment[1..];
      }
    }
  }

  lemma {:induction false} WildPrefix(prefix: string, segment: string)
    requires '*' !in prefix && '/' !in segment
    ensures Wild(prefix + "*", segment) <==> prefix <= segment
    decreases |prefix|
  {
    var glob := prefix + "*";
    if prefix == "" {
      assert glob[1..] == "";
      assert segment[|segment|..] == "" && StretchTo(segment, |segment|);
    } else {
      assert prefix[0] in prefix && forall c :: c in prefix[1..] ==> c in prefix;
      assert glob[1..] == prefix[1..] + "*";
      if segment != "" {
        assert forall c :: c in segment[1..] ==> c in segment;
        WildPrefix(prefix[1..], segment[1..]);
        assert prefix == [prefix[0]] + prefix[1..] && segment == [segment[0]] + segment[1..];
      }
    }
  }

  lemma {:induction false} NoSlashInside(path: string)
    ensures forall i :: 0 <= i < |Split(path)| ==> '/' !in Split(path)[i]
  {
    if path != "" {
      NoSlashInside(path[1..]);
    }
  }

  /** A pattern without special characters is the name of a segment. */
  lemma NamePattern(rel: string, name: string)
    requires name != "" && NormalizePattern(name) == name && '*' !in name && '?' !in name && '/' !in name
    ensures MatchPattern(rel, name) == if name in Split(rel) then Excluded else Included
  {
    PlainPatternIsWildcard(rel, name);
    forall i | 0 <= i < |Split(rel)|
      ensures Wild(name, Split(rel)[i]) <==> Split(rel)[i] == name
    {
      WildLiteral(name, Split(rel)[i]);
    }
  }

  ghost predicate SomeBegins(prefix: string, segments: seq<string>)
  {
    exists i :: 0 <= i < |segments| && prefix <= segments[i]
  }

  /** One that ends in a star is the beginning of a segment. */
  lemma PrefixPattern(rel: string, prefix: string)
    requires NormalizePattern(prefix + "*") == prefix + "*" && '*' !in prefix && '?' !in prefix && '/' !in prefix
    ensures MatchPattern(rel, prefix + "*") == if SomeBegins(prefix, Split(rel)) then Excluded else Included
  {
    PlainPatternIsWildcard(rel, prefix + "*");
    NoSlashInside(rel);
    forall i | 0 <= i < |Split(rel)|
      ensures Wild(prefix + "*", Split(rel)[i]) <==> prefix <= Split(rel)[i]
    {
      WildPrefix(prefix, Split(rel)[i]);
    }
  }

  lemma JudgeNext(rel: string, first: string, rest: seq<string>)
    requires rel != "" && MatchPattern(rel, first) != BadPattern
    ensures Judge(rel, [first] + rest) == if MatchPattern(rel, first) == Excluded then Excluded else Judge(rel, rest)
  {
    assert ([first] + rest)[1..] == rest;
  }

  lemma DefaultMatches(rel: string)
    ensures MatchPattern(rel, ".git") == if ".git" in Split(rel) then Excluded else Included
    ensures MatchPattern(rel, ".env") == if ".env" in Split(rel) then Excluded else Included
    ensures MatchPattern(rel, ".env.*") == if SomeBegins(".env.", Split(rel)) then Excluded else Included
  {
    PlainName(rel, ".git");
    PlainName(rel, ".env");
    EnvPrefix(rel);
  }

  lemma PlainName(rel: string, name: string)
    requires name == ".git" || name == ".env"
    ensures MatchPattern(rel, name) == if name in Split(rel) then Excluded else Included
  {
    PlainNameNormal(name);
    NamePattern(rel, name);
  }

  lemma EnvPrefix(rel: string)
    ensures MatchPattern(rel, ".env.*") == if SomeBegins(".env.", Split(rel)) then Excluded else Included
  {
    PlainNameNormal(".env.*");
    assert ".env." + "*" == ".env.*";
    PrefixPattern(rel, ".env.");
  }

  /** The sync never copies over, or deletes, the repository and the env files: whatever extra patterns follow, the
      defaults exclude a path exactly when one of its segments is `.git`, `.env` or begins with `.env.`. */
  lemma DefaultsProtect(rel: string, extra: seq<string>)
    requires rel != ""
    ensures Judge(rel, DEFAULT_SYNC_EXCLUDES + extra) ==
      if ".git" in Split(rel) || ".env" in Split(rel) || SomeBegins(".env.", Split(rel)) then Excluded
      else Judge(rel, extra)
  {
    DefaultMatches(rel);
    JudgeThree(rel, ".git", ".env", ".env.*", extra);
  }

  lemma JudgeThree(rel: string, a: string, b: string, c: string, rest: seq<string>)
    requires rel != "" && MatchPattern(rel, a) != BadPattern
    requires MatchPattern(rel, b) != BadPattern && MatchPattern(rel, c) != BadPattern
    ensures Judge(rel, [a, b, c] + rest) ==
      if MatchPattern(rel, a) == Excluded || MatchPattern(rel, b) == Excluded || MatchPattern(rel, c) == Excluded
      then Excluded else Judge(rel, rest)
  {
    JudgeNext(rel, c, rest);
    JudgeNext(rel, b, [c] + rest);
    JudgeNext(rel, a, [b] + ([c] + rest));
    assert [a, b, c] + rest == [a] + ([b] + ([c] + rest));
  }

  predicate WellFormed(patterns: seq<string>)
  {
    forall p :: p in patterns ==> '/' in NormalizePattern(p) || GlobToRegExp(NormalizePattern(p)).Some?
  }

  lemma {:induction false} WellFormedPatternsNeverThrow(rel: string, patterns: seq<string>)
    requires WellFormed(patterns)
    ensures Judge(rel, patterns) != BadPattern
  {
    if patterns != [] {
      assert patterns[0] in patterns;
      WellFormedPatternsNeverThrow(rel, patterns[1..]);
    }
  }

  // The copy fallback

  datatype Node = File | Dir(entries: seq<Entry>)

  datatype Entry = Entry(name: string, node: Node)

  function Child(rel: string, name: string): string
  {
    if rel == "" then name else rel + "/" + name
  }

  /** Paths of all files under a node. */
  function Files(node: Node, rel: string): set<string>
  {
    match node
    case File => {rel}
    case Dir(entries) => FilesIn(entries, rel)
  }

  function FilesIn(entries: seq<Entry>, rel: string): set<string>
  {
    if entries == [] then {}
    else Files(entries[0].node, Child(rel, entries[0].name)) + FilesIn(entries[1..], rel)
  }

  /** `cpSync` with the filter: a filtered-out directory is not entered. None when the filter throws. */
  function Copy(node: Node, rel: string, patterns: seq<string>): Option<set<string>>
  {
    match Judge(rel, patterns)
    case Excluded => Some({})
    case BadPattern => None
    case Included =>
      match node
      case File => Some({rel})
      case Dir(entries) => CopyIn(entries, rel, patterns)
  }

  function CopyIn(entries: seq<Entry>, rel: string, patterns: seq<string>): Option<set<string>>
  {
    if entries == [] then Some({})
    else
      match Copy(entries[0].node, Child(rel, entries[0].name), patterns)
      case None => None
      case Some(copied) =>
        match CopyIn(entries[1..], rel, patterns)
        case None => None
        case Some(rest) => Some(copied + rest)
  }

  /** Keeping exactly the files whose own path passes the filter. */
  function Kept(files: set<string>, patterns: seq<string>): set<string>
  {
    set f | f in files && Judge(f, patterns) == Included
  }

  predicate ProperNames(node: Node)
  {
    match node
    case File => true
    case Dir(entries) => forall i :: 0 <= i < |entries| ==> entries[i].name != "" && ProperNames(entries[i].node)
  }

  ghost predicate AtOrBelow(f: string, rel: string)
  {
    f == rel || exists below :: f == rel + "/" + below
  }

  lemma {:induction false} FilesAreBelow(node: Node, rel: string)
    requires rel != "" && ProperNames(node)
    ensures forall f :: f in Files(node, rel) ==> AtOrBelow(f, rel)
    decreases node, 0
  {
    if node.Dir? {
      FilesInAreBelow(node.entries, rel);
    }
  }

  lemma {:induction false} FilesInAreBelow(entries: seq<Entry>, rel: string)
    requires rel != "" && ProperNames(Dir(entries))
    ensures forall f :: f in FilesIn(entries, rel) ==> AtOrBelow(f, rel)
    decreases entries, 1
  {
    if entries != [] {
      var child := Child(rel, entries[0].name);
      FilesAreBelow(entries[0].node, child);
      forall f | f in Files(entries[0].node, child)
        ensures AtOrBelow(f, rel)
      {
        if f == child {
          assert f == rel + "/" + entries[0].name;
        } else {
          var below :| f == child + "/" + below;
          assert f == rel + "/" + (entries[0].name + "/" + below);
        }
      }
      assert ProperNames(Dir(entries[1..]));
      FilesInAreBelow(entries[1..], rel);
    }
  }

  /** Nothing is kept under an excluded path. */
  lemma ExcludedKeepsNothing(node: Node, rel: string, patterns: seq<string>)
    requires rel != "" && ProperNames(node) && Judge(rel, patterns) == Excluded
    ensures Kept(Files(node, rel), patterns) == {}
  {
    FilesAreBelow(node, rel);
    forall f | f in Files(node, rel)
      ensures Judge(f, patterns) == Excluded
    {
      if f != rel {
        var below :| f == rel + "/" + below;
        ExclusionIsDownwardClosed(rel, below, patterns);
      }
    }
  }

  /** Pruning whole directories copies exactly what filtering every file would keep. */
  lemma {:induction false} CopyIsFlatFilter(node: Node, rel: string, patterns: seq<string>)
    requires ProperNames(node) && Copy(node, rel, patterns).Some?
    ensures Copy(node, rel, patterns).value == Kept(Files(node, rel), patterns)
    decreases node, 0
  {
    match Judge(rel, patterns)
    case Excluded => ExcludedKeepsNothing(node, rel, patterns);
    case Included =>
      if node.Dir? {
        CopyInIsFlatFilter(node.entries, rel, patterns);
      }
  }

  lemma {:induction false} CopyInIsFlatFilter(entries: seq<Entry>, rel: string, patterns: seq<string>)
    requires ProperNames(Dir(entries)) && CopyIn(entries, rel, patterns).Some?
    ensures CopyIn(entries, rel, patterns).value == Kept(FilesIn(entries, rel), patterns)
    decreases entries, 1
  {
    if entries != [] {
      CopyIsFlatFilter(entries[0].node, Child(rel, entries[0].name), patterns);
      assert ProperNames(Dir(entries[1..]));
      CopyInIsFlatFilter(entries[1..], rel, patterns);
    }
  }

  /** The copy fails only when some pattern does not compile. */
  lemma {:induction false} WellFormedCopySucceeds(node: Node, rel: string, patterns: seq<string>)
    requires WellFormed(patterns)
    ensures Copy(node, rel, patterns).Some?
    decreases node, 0
  {
    WellFormedPatternsNeverThrow(rel, patterns);
    if node.Dir? {
      WellFormedCopyInSucceeds(node.entries, rel, patterns);
    }
  }

  lemma {:induction false} WellFormedCopyInSucceeds(entries: seq<Entry>, rel: string, patterns: seq<string>)
    requires WellFormed(patterns)
    ensures CopyIn(entries, rel, patterns).Some?
    decreases entries, 1
  {
    if entries != [] {
      WellFormedCopySucceeds(entries[0].node, Child(rel, entries[0].name), patterns);
      WellFormedCopyInSucceeds(entries[1..], rel, patterns);
    }
  }

  // Building the pattern list

  predicate IsAbsolute(path: string)
  {
    path != "" && path[0] == '/'
  }

  /** `p` is the normal form of one of the first `n` extra patterns that is usable. */
  predicate Contributed(extra: seq<Option<string>>, n: nat, p: string)
    requires n <= |extra|
  {
    p != "" && exists i :: 0 <= i < n && Usable(extra[i]) && NormalizePattern(extra[i].value) == p
  }

  predicate Usable(pattern: Option<string>)
  {
    pattern.Some? && pattern.value != "" && !IsAbsolute(pattern.value)
  }

  lemma ContributedNext(extra: seq<Option<string>>, n: nat)
    requires n < |extra|
    ensures forall p :: Contributed(extra, n + 1, p) <==>
      || Contributed(extra, n, p)
      || (p != "" && Usable(extra[n]) && NormalizePattern(extra[n].value) == p)
  {
    forall p | Contributed(extra, n, p)
      ensures Contributed(extra, n + 1, p)
    {
      var i :| 0 <= i < n && Usable(extra[i]) && NormalizePattern(extra[i].value) == p;
      assert 0 <= i < n + 1;
    }
    if Usable(extra[n]) && NormalizePattern(extra[n].value) != "" {
      assert Contributed(extra, n + 1, NormalizePattern(extra[n].value));
    }
  }

  /** Extra patterns join the defaults once each, normalized; absolute and empty ones are dropped. */
  method ResolveSyncExcludes(extra: seq<Option<string>>) returns (all: seq<string>)
    ensures DEFAULT_SYNC_EXCLUDES <= all
    ensures forall i, j :: 0 <= i < j < |all| ==> all[i] != all[j]
    ensures forall p :: p in all <==> p in DEFAULT_SYNC_EXCLUDES || Contributed(extra, |extra|, p)
  {
    all := DEFAULT_SYNC_EXCLUDES;
    for k := 0 to |extra|
      invariant DEFAULT_SYNC_EXCLUDES <= all
      invariant forall i, j :: 0 <= i < j < |all| ==> all[i] != all[j]
      invariant forall p :: p in all <==> p in DEFAULT_SYNC_EXCLUDES || Contributed(extra, k, p)
    {
      ContributedNext(extra, k);
      if Usable(extra[k]) {
        var normalized := NormalizePattern(extra[k].value);
        if normalized != "" && normalized !in all {
          all := all + [normalized];
        }
      }
    }
  }
}
