/**
  The deterministic half of the code-analysis service: line, comment and
  keyword counts with the clamped maintainability score, the pattern-result
  table, the language-specific suggestion rules and the ranking of
  suggestions. Regular-expression matching and the model's own suggestions
  are inputs.
*/
module CodeAnalyzer {
  import opened Wrappers
  import opened Text

  // ---------------------------------------------------------------------------
  // Basic metrics
  // ---------------------------------------------------------------------------

  /** Line starts that make a stripped line a comment. */
  const CommentPrefixes := ["#", "//", "/*", "*", "--", "%", ";"]

  /** Words whose occurrence in a lower-cased line adds one to the complexity. */
  const ComplexityKeywords := ["if", "else", "elif", "for", "while", "switch", "case", "try", "except", "catch"]

  /** The record `_calculate_basic_metrics` returns. */
  datatype Metrics = Metrics(
    linesOfCode: nat,
    commentLines: nat,
    commentRatio: real,
    complexityScore: nat,
    maintainabilityScore: real)

  /** The lines whose `strip()` is not empty, in order. */
  function NonEmptyLines(lines: seq<string>): (r: seq<string>)
    ensures |r| <= |lines|
  {
    if lines == [] then []
    else
      var last := lines[|lines| - 1];
      NonEmptyLines(lines[..|lines| - 1]) + (if Strip(last) != [] then [last] else [])
  }

  /** The lines of code are exactly the lines whose `strip()` is not empty. */
  lemma {:induction false} NonEmptyLinesMembers(lines: seq<string>)
    ensures forall l :: l in NonEmptyLines(lines) <==> l in lines && Strip(l) != []
  {
    if lines != [] {
      var init := lines[..|lines| - 1];
      NonEmptyLinesMembers(init);
      assert lines == init + [lines[|lines| - 1]];
    }
  }

  /** A line counted as a comment: its stripped text starts with a comment marker. */
  predicate IsComment(line: string) {
    StartsWithAny(Strip(line), CommentPrefixes)
  }

  /** The number of comment lines. */
  function CommentCount(lines: seq<string>): nat {
    if lines == [] then 0
    else CommentCount(lines[..|lines| - 1]) + (if IsComment(lines[|lines| - 1]) then 1 else 0)
  }

  /** The number of `keywords` that occur in `lower`. */
  function KeywordHits(lower: string, keywords: seq<string>): (n: nat)
    ensures n <= |keywords|
  {
    if keywords == [] then 0
    else
      KeywordHits(lower, keywords[..|keywords| - 1])
        + (if Contains(lower, keywords[|keywords| - 1]) then 1 else 0)
  }

  /** The complexity of some lines: the complexity keywords found in each lower-cased line, summed. */
  function Complexity(lines: seq<string>): nat {
    if lines == [] then 0
    else Complexity(lines[..|lines| - 1]) + KeywordHits(ToLower(lines[|lines| - 1]), ComplexityKeywords)
  }

  /** `comment_lines / max(1, loc)`: between 0 and 1 when there are no more comments than lines. */
  function CommentRatio(comments: nat, loc: nat): (ratio: real)
    ensures 0.0 <= ratio
    ensures comments <= loc ==> ratio <= 1.0
    ensures comments == 0 ==> ratio == 0.0
  {
    var d := (if loc >= 1 then loc else 1) as real;
    var ratio := comments as real / d;
    assert ratio * d == comments as real;
    ratio
  }

  /**
    `max(0, min(100, 100 - complexity * 2 - loc / 100))`: always a score between 0
    and 100, equal to the unclamped formula whenever that lies in the range.
  */
  function Maintainability(complexity: nat, loc: nat): (score: real)
    ensures 0.0 <= score <= 100.0
    ensures var raw := 100.0 - (complexity * 2) as real - loc as real / 100.0;
      0.0 <= raw <= 100.0 ==> score == raw
    ensures var raw := 100.0 - (complexity * 2) as real - loc as real / 100.0;
      raw < 0.0 ==> score == 0.0
  {
    var raw := 100.0 - (complexity * 2) as real - loc as real / 100.0;
    var capped := if raw < 100.0 then raw else 100.0;
    if capped > 0.0 then capped else 0.0
  }

  lemma NonEmptyLinesSnoc(lines: seq<string>, i: nat)
    requires i < |lines|
    ensures NonEmptyLines(lines[..i + 1])
      == NonEmptyLines(lines[..i]) + (if Strip(lines[i]) != [] then [lines[i]] else [])
  {
    assert lines[..i + 1][..i] == lines[..i];
  }

  lemma CommentCountSnoc(lines: seq<string>, i: nat)
    requires i < |lines|
    ensures CommentCount(lines[..i + 1]) == CommentCount(lines[..i]) + (if IsComment(lines[i]) then 1 else 0)
  {
    assert lines[..i + 1][..i] == lines[..i];
  }

  lemma ComplexitySnoc(lines: seq<string>, i: nat)
    requires i < |lines|
    ensures Complexity(lines[..i + 1]) == Complexity(lines[..i]) + KeywordHits(ToLower(lines[i]), ComplexityKeywords)
  {
    assert lines[..i + 1][..i] == lines[..i];
  }

  lemma KeywordHitsSnoc(lower: string, keywords: seq<string>, j: nat)
    requires j < |keywords|
    ensures KeywordHits(lower, keywords[..j + 1])
      == KeywordHits(lower, keywords[..j]) + (if Contains(lower, keywords[j]) then 1 else 0)
  {
    assert keywords[..j + 1][..j] == keywords[..j];
  }

  /**
    `_calculate_basic_metrics`: the non-blank lines are the lines of code, a
    comment line is one whose stripped text starts with a comment marker, and
    every complexity keyword found in a lower-cased line of code adds one.
  */
  method CalculateBasicMetrics(code: string) returns (m: Metrics)
    ensures m.linesOfCode == |NonEmptyLines(Split(code))|
    ensures m.commentLines == CommentCount(Split(code))
    ensures m.complexityScore == Complexity(NonEmptyLines(Split(code)))
    ensures m.commentRatio == CommentRatio(m.commentLines, m.linesOfCode)
    ensures m.maintainabilityScore == Maintainability(m.complexityScore, m.linesOfCode)
  {
    var lines := Split(code);
    var nonEmpty := CollectNonEmpty(lines);
    var loc := |nonEmpty|;
    var commentLines := CountComments(lines);
    var complexity := CountComplexity(nonEmpty);
    m := Metrics(loc, commentLines, CommentRatio(commentLines, loc), complexity,
                 Maintainability(complexity, loc));
  }

  /** The first loop of `_calculate_basic_metrics`: the non-blank lines, in order. */
  method CollectNonEmpty(lines: seq<string>) returns (nonEmpty: seq<string>)
    ensures nonEmpty == NonEmptyLines(lines)
  {
    nonEmpty := [];
    for i := 0 to |lines|
      invariant nonEmpty == NonEmptyLines(lines[..i])
    {
      NonEmptyLinesSnoc(lines, i);
      if Strip(lines[i]) != [] {
        nonEmpty := nonEmpty + [lines[i]];
      }
    }
    assert lines[..|lines|] == lines;
  }

  /** The second loop: one per line whose stripped text starts with a comment marker. */
  method CountComments(lines: seq<string>) returns (commentLines: nat)
    ensures commentLines == CommentCount(lines)
  {
    commentLines := 0;
    for i := 0 to |lines|
      invariant commentLines == CommentCount(lines[..i])
    {
      CommentCountSnoc(lines, i);
      if IsComment(lines[i]) {
        commentLines := commentLines + 1;
      }
    }
    assert lines[..|lines|] == lines;
  }

  /** The third loop: the keyword hits of every line of code. */
  method CountComplexity(nonEmpty: seq<string>) returns (complexity: nat)
    ensures complexity == Complexity(nonEmpty)
  {
    complexity := 0;
    for i := 0 to |nonEmpty|
      invariant complexity == Complexity(nonEmpty[..i])
    {
      ComplexitySnoc(nonEmpty, i);
      var hits := CountKeywords(ToLower(nonEmpty[i]));
      complexity := complexity + hits;
    }
    assert nonEmpty[..|nonEmpty|] == nonEmpty;
  }

  /** The inner loop of `_calculate_basic_metrics`: one point per complexity keyword found in `lower`. */
  method CountKeywords(lower: string) returns (n: nat)
    ensures n == KeywordHits(lower, ComplexityKeywords)
  {
    n := 0;
    for j := 0 to |ComplexityKeywords|
      invariant n == KeywordHits(lower, ComplexityKeywords[..j])
    {
      KeywordHitsSnoc(lower, ComplexityKeywords, j);
      if Contains(lower, ComplexityKeywords[j]) {
        n := n + 1;
      }
    }
    assert ComplexityKeywords[..|ComplexityKeywords|] == ComplexityKeywords;
  }

  /** Every comment marker is at least one character long, so a comment line is not blank. */
  lemma CommentNotBlank(line: string)
    requires IsComment(line)
    ensures Strip(line) != []
  {
    CommentPrefixesNonEmpty();
    NoPrefixOfEmpty(CommentPrefixes);
  }

  lemma CommentPrefixesNonEmpty()
    ensures forall i :: 0 <= i < |CommentPrefixes| ==> CommentPrefixes[i] != []
  {
  }

  /** A stripped comment line is not blank, so there are never more comment lines than lines of code. */
  lemma {:induction false} CommentLinesBounded(lines: seq<string>)
    ensures CommentCount(lines) <= |NonEmptyLines(lines)|
  {
    if lines != [] {
      var last := lines[|lines| - 1];
      CommentLinesBounded(lines[..|lines| - 1]);
      if IsComment(last) {
        CommentNotBlank(last);
      }
    }
  }

  /** Each line adds at most one per keyword: the complexity is at most ten per line of code. */
  lemma {:induction false} ComplexityBounded(lines: seq<string>)
    ensures Complexity(lines) <= |ComplexityKeywords| * |lines|
  {
    if lines != [] {
      ComplexityBounded(lines[..|lines| - 1]);
    }
  }

  /**
    The metrics of any text: the comment ratio lies in [0, 1] and is 0 when the
    text has no line of code, and the complexity is at most 10 per line of code.
  */
  lemma MetricsBounds(code: string)
    ensures var lines := Split(code);
      var loc := |NonEmptyLines(lines)|;
      var ratio := CommentRatio(CommentCount(lines), loc);
      && 0.0 <= ratio <= 1.0
      && (loc == 0 ==> ratio == 0.0)
      && Complexity(NonEmptyLines(lines)) <= 10 * loc
  {
    var lines := Split(code);
    var comments := CommentCount(lines);
    var loc := |NonEmptyLines(lines)|;
    CommentLinesBounded(lines);
    assert comments <= loc;
    if loc == 0 {
      assert comments == 0;
    }
    ComplexityBounded(NonEmptyLines(lines));
    assert |ComplexityKeywords| == 10;
  }

  // ---------------------------------------------------------------------------
  // Pattern results
  // ---------------------------------------------------------------------------

  /**
    `_analyze_with_patterns`: the names of the patterns that matched, each with
    its matches. `findAll(name)` stands for the regular expression's matches in
    the code.
  */
  function AnalyzeWithPatterns(names: seq<string>, findAll: string -> seq<string>): (results: map<string, seq<string>>)
    ensures forall n :: n in results <==> n in names && findAll(n) != []
    ensures forall n :: n in results ==> results[n] == findAll(n)
  {
    if names == [] then map[]
    else
      var rest := AnalyzeWithPatterns(names[..|names| - 1], findAll);
      var n := names[|names| - 1];
      if findAll(n) != [] then rest[n := findAll(n)] else rest
  }

  // ---------------------------------------------------------------------------
  // Suggestions
  // ---------------------------------------------------------------------------

  datatype Suggestion = Suggestion(kind: string, description: string, priority: string, confidence: real)

  /** The parts of an analysis the suggestion rules read; absent entries are `None` or empty. */
  datatype AnalysisView = AnalysisView(
    maintainability: Option<real>,
    commentRatio: Option<real>,
    languageSpecific: map<string, seq<string>>)

  const Refactoring := Suggestion("refactoring",
    "Consider refactoring complex functions to improve maintainability", "high", 0.8)
  const Documentation := Suggestion("documentation",
    "Add more comments to improve code readability", "medium", 0.9)
  const ErrorHandling := Suggestion("error_handling",
    "Specify exception types in except clauses instead of bare except", "high", 0.95)
  const Security := Suggestion("security",
    "Avoid using eval() due to security risks", "high", 0.95)
  const MemoryManagement := Suggestion("memory_management",
    "Fix potential memory leaks by adding proper delete statements", "high", 0.85)

  /** The confidence every suggestion parsed from the model's reply is given. */
  const AiConfidence: real := 0.75

  /** `.get(name)` on the language-specific results is truthy: present with some matches. */
  predicate Found(languageSpecific: map<string, seq<string>>, name: string) {
    name in languageSpecific && languageSpecific[name] != []
  }

  /**
    `_get_language_suggestions`: at most one suggestion, of high priority, and
    only for Python with a bare `except`, JavaScript using `eval` or C++ with a
    possible leak.
  */
  function LanguageSuggestions(language: string, languageSpecific: map<string, seq<string>>): (r: seq<Suggestion>)
    ensures |r| <= 1
    ensures forall s :: s in r ==> s.priority == "high"
    ensures r == [ErrorHandling] <==> ToLower(language) == "python" && Found(languageSpecific, "bare_except")
    ensures r == [Security] <==> ToLower(language) == "javascript" && Found(languageSpecific, "eval_usage")
    ensures r == [MemoryManagement] <==> ToLower(language) == "cpp" && Found(languageSpecific, "memory_leaks")
    ensures r == [] || r == [ErrorHandling] || r == [Security] || r == [MemoryManagement]
  {
    var lang := ToLower(language);
    if lang == "python" then
      if Found(languageSpecific, "bare_except") then [ErrorHandling] else []
    else if lang == "javascript" then
      if Found(languageSpecific, "eval_usage") then [Security] else []
    else if lang == "cpp" then
      if Found(languageSpecific, "memory_leaks") then [MemoryManagement] else []
    else []
  }

  /** The ranking key, `(priority == "high", confidence)`. */
  function KeyOf(s: Suggestion): (bool, real) {
    (s.priority == "high", s.confidence)
  }

  /** `a` has a strictly larger key than `b`, so it is placed before `b`. */
  predicate Outranks(a: Suggestion, b: Suggestion) {
    (KeyOf(a).0 && !KeyOf(b).0) || (KeyOf(a).0 == KeyOf(b).0 && KeyOf(a).1 > KeyOf(b).1)
  }

  /** Keys never increase along the list. */
  predicate SortedDesc(s: seq<Suggestion>) {
    forall i, j :: 0 <= i < j < |s| ==> !Outranks(s[j], s[i])
  }

  /** `x` placed after every element whose key is at least its own. */
  function Insert(x: Suggestion, t: seq<Suggestion>): (r: seq<Suggestion>)
    ensures |r| == |t| + 1
  {
    if t == [] then [x]
    else if Outranks(x, t[0]) then [x] + t
    else [t[0]] + Insert(x, t[1..])
  }

  /** `list.sort(key=..., reverse=True)`: a stable sort by decreasing key. */
  function SortDesc(s: seq<Suggestion>): (r: seq<Suggestion>)
    ensures |r| == |s|
  {
    if s == [] then []
    else Insert(s[|s| - 1], SortDesc(s[..|s| - 1]))
  }

  /** The elements with a given key, in order. */
  function WithKey(s: seq<Suggestion>, key: (bool, real)): seq<Suggestion> {
    if s == [] then []
    else (if KeyOf(s[0]) == key then [s[0]] else []) + WithKey(s[1..], key)
  }

  lemma {:induction false} InsertPermutes(x: Suggestion, t: seq<Suggestion>)
    ensures multiset(Insert(x, t)) == multiset(t) + multiset{x}
  {
    if t != [] && !Outranks(x, t[0]) {
      InsertPermutes(x, t[1..]);
      assert t == [t[0]] + t[1..];
    }
  }

  lemma {:induction false} InsertSorted(x: Suggestion, t: seq<Suggestion>)
    requires SortedDesc(t)
    ensures SortedDesc(Insert(x, t))
    ensures t != [] && !Outranks(x, t[0]) ==> Insert(x, t)[0] == t[0]
  {
    if t != [] && !Outranks(x, t[0]) {
      InsertSorted(x, t[1..]);
      var r := Insert(x, t);
      var rest := Insert(x, t[1..]);
      InsertPermutes(x, t[1..]);
      forall j | 1 <= j < |r| ensures !Outranks(r[j], r[0]) {
        assert r[j] in multiset(rest);
        assert r[j] in multiset(t[1..]) + multiset{x};
        if r[j] != x {
          assert r[j] in t[1..];
          var k :| 0 <= k < |t[1..]| && t[1..][k] == r[j];
          assert t[k + 1] == r[j];
        }
      }
    }
  }

  /** The stable sort permutes its input and orders it by non-increasing key. */
  lemma {:induction false} SortDescCorrect(s: seq<Suggestion>)
    ensures multiset(SortDesc(s)) == multiset(s)
    ensures SortedDesc(SortDesc(s))
  {
    if s != [] {
      var init := s[..|s| - 1];
      SortDescCorrect(init);
      assert SortDesc(s) == Insert(s[|s| - 1], SortDesc(init));
      InsertPermutes(s[|s| - 1], SortDesc(init));
      InsertSorted(s[|s| - 1], SortDesc(init));
      assert s == init + [s[|s| - 1]];
    }
  }

  lemma {:induction false} WithKeyAppend(a: seq<Suggestion>, b: seq<Suggestion>, key: (bool, real))
    ensures WithKey(a + b, key) == WithKey(a, key) + WithKey(b, key)
  {
    if a == [] {
      assert a + b == b;
    } else {
      assert (a + b)[0] == a[0];
      assert (a + b)[1..] == a[1..] + b;
      WithKeyAppend(a[1..], b, key);
    }
  }

  /** Nothing in a sorted list outranked by `x` shares `x`'s key. */
  lemma {:induction false} OutrankedHasOtherKey(x: Suggestion, t: seq<Suggestion>)
    requires SortedDesc(t) && t != [] && Outranks(x, t[0])
    ensures WithKey(t, KeyOf(x)) == []
  {
    assert KeyOf(t[0]) != KeyOf(x);
    if |t| > 1 {
      assert !Outranks(t[1], t[0]);
      assert SortedDesc(t[1..]) by {
        forall i, j | 0 <= i < j < |t[1..]| ensures !Outranks(t[1..][j], t[1..][i]) {
          assert t[1..][j] == t[j + 1] && t[1..][i] == t[i + 1];
        }
      }
      OutrankedHasOtherKey(x, t[1..]);
    }
  }

  lemma {:induction false} InsertStable(x: Suggestion, t: seq<Suggestion>, key: (bool, real))
    requires SortedDesc(t)
    ensures WithKey(Insert(x, t), key) == WithKey(t, key) + (if KeyOf(x) == key then [x] else [])
  {
    if t == [] {
    } else if Outranks(x, t[0]) {
      if KeyOf(x) == key {
        OutrankedHasOtherKey(x, t);
      }
      assert ([x] + t)[1..] == t;
    } else {
      assert SortedDesc(t[1..]) by {
        forall i, j | 0 <= i < j < |t[1..]| ensures !Outranks(t[1..][j], t[1..][i]) {
          assert t[1..][j] == t[j + 1] && t[1..][i] == t[i + 1];
        }
      }
      InsertStable(x, t[1..], key);
      assert ([t[0]] + Insert(x, t[1..]))[1..] == Insert(x, t[1..]);
    }
  }

  /** The sort is stable: the elements with any one key keep their relative order. */
  lemma {:induction false} SortDescStable(s: seq<Suggestion>, key: (bool, real))
    ensures WithKey(SortDesc(s), key) == WithKey(s, key)
  {
    if s != [] {
      var init := s[..|s| - 1];
      var x := s[|s| - 1];
      SortDescStable(init, key);
      assert s == init + [x];
      StableStep(init, x, key);
    }
  }

  /** One more element keeps the sort stable once it is stable on the elements before it. */
  lemma StableStep(init: seq<Suggestion>, x: Suggestion, key: (bool, real))
    requires WithKey(SortDesc(init), key) == WithKey(init, key)
    ensures WithKey(SortDesc(init + [x]), key) == WithKey(init + [x], key)
  {
    SortDescCorrect(init);
    assert (init + [x])[..|init|] == init;
    assert SortDesc(init + [x]) == Insert(x, SortDesc(init));
    InsertStable(x, SortDesc(init), key);
    WithKeyAppend(init, [x], key);
    assert WithKey([x], key) == (if KeyOf(x) == key then [x] else []) by {
      assert [x][1..] == [];
    }
  }

  /** The suggestions the two metric rules add. */
  function RuleSuggestions(analysis: AnalysisView): seq<Suggestion> {
    (if analysis.maintainability.GetOr(100.0) < 70.0 then [Refactoring] else [])
    + (if analysis.commentRatio.GetOr(0.0) < 0.1 then [Documentation] else [])
  }

  /** The language-specific suggestions, asked for only when a language is given. */
  function LanguagePart(analysis: AnalysisView, language: Option<string>): seq<Suggestion> {
    if language.Some? && language.value != "" then LanguageSuggestions(language.value, analysis.languageSpecific) else []
  }

  /** The suggestions `_generate_suggestions` collects before ranking. */
  function Collected(analysis: AnalysisView, language: Option<string>, capabilities: seq<string>,
                     aiSuggestions: seq<Suggestion>): seq<Suggestion> {
    RuleSuggestions(analysis) + LanguagePart(analysis, language)
    + (if "code-analysis" in capabilities then aiSuggestions else [])
  }

  /**
    A refactoring suggestion is collected exactly when the maintainability score
    (100 when missing) is below 70, a documentation one exactly when the comment
    ratio (0 when missing) is below 0.1. The model's own suggestions always carry
    confidence 0.75, so none of them equals either rule suggestion, whatever its kind.
  */
  lemma CollectedRules(analysis: AnalysisView, language: Option<string>, capabilities: seq<string>,
                       aiSuggestions: seq<Suggestion>)
    requires forall s :: s in aiSuggestions ==> s.confidence == AiConfidence
    ensures Refactoring in Collected(analysis, language, capabilities, aiSuggestions)
      <==> analysis.maintainability.GetOr(100.0) < 70.0
    ensures Documentation in Collected(analysis, language, capabilities, aiSuggestions)
      <==> analysis.commentRatio.GetOr(0.0) < 0.1
  {
    var lang := LanguagePart(analysis, language);
    assert Refactoring !in lang && Documentation !in lang;
  }

  /**
    `_generate_suggestions`: collect the rule-based, language and model
    suggestions, sort them stably by `(priority == "high", confidence)` in
    decreasing order and keep the first ten.
  */
  method GenerateSuggestions(analysis: AnalysisView, language: Option<string>, capabilities: seq<string>,
                             aiSuggestions: seq<Suggestion>) returns (r: seq<Suggestion>)
    ensures var all := Collected(analysis, language, capabilities, aiSuggestions);
      && |r| == (if |all| < 10 then |all| else 10)
      && r == SortDesc(all)[..|r|]
      && SortedDesc(r)
      && multiset(r) <= multiset(all)
  {
    var suggestions := CollectSuggestions(analysis, language, capabilities, aiSuggestions);
    RankedPrefix(suggestions);
    suggestions := SortDesc(suggestions);
    r := if |suggestions| <= 10 then suggestions else suggestions[..10];
  }

  /** The collecting half of `_generate_suggestions`: rule, language and model suggestions, in that order. */
  method CollectSuggestions(analysis: AnalysisView, language: Option<string>, capabilities: seq<string>,
                            aiSuggestions: seq<Suggestion>) returns (suggestions: seq<Suggestion>)
    ensures suggestions == Collected(analysis, language, capabilities, aiSuggestions)
  {
    suggestions := [];
    if analysis.maintainability.GetOr(100.0) < 70.0 {
      suggestions := suggestions + [Refactoring];
    }
    if analysis.commentRatio.GetOr(0.0) < 0.1 {
      suggestions := suggestions + [Documentation];
    }
    assert suggestions == RuleSuggestions(analysis);
    if language.Some? && language.value != "" {
      suggestions := suggestions + LanguageSuggestions(language.value, analysis.languageSpecific);
    }
    assert suggestions == RuleSuggestions(analysis) + LanguagePart(analysis, language);
    if "code-analysis" in capabilities {
      suggestions := suggestions + aiSuggestions;
    }
  }

  /** The first ten of the ranked list are sorted, drawn from the input, and a prefix of the ranking. */
  lemma RankedPrefix(all: seq<Suggestion>)
    ensures var s := SortDesc(all);
      var n := if |all| < 10 then |all| else 10;
      var r := if |s| <= 10 then s else s[..10];
      && |r| == n && r == s[..n] && SortedDesc(r) && multiset(r) <= multiset(all)
  {
    SortDescCorrect(all);
    var s := SortDesc(all);
    var n := if |all| < 10 then |all| else 10;
    PrefixSorted(s, n);
  }

  /** A prefix of a sorted list is sorted and holds some of its elements. */
  lemma PrefixSorted(s: seq<Suggestion>, n: nat)
    requires n <= |s| && SortedDesc(s)
    ensures SortedDesc(s[..n]) && multiset(s[..n]) <= multiset(s)
    ensures n == |s| ==> s[..n] == s
  {
    assert s == s[..n] + s[n..];
    assert multiset(s) == multiset(s[..n]) + multiset(s[n..]);
  }
}
