/**
  The deterministic half of the code-generation service: prompt templates by
  language, the choice of a generation profile by temperature, and the
  post-processing of generated text (trimming, the Python re-indenter and the
  C-style semicolon fixer). Tokenising and sampling are not part of the model.
*/
module CodeGenerator {
  import opened Wrappers
  import opened Text

  // ---------------------------------------------------------------------------
  // Prompt formatting
  // ---------------------------------------------------------------------------

  /** A piece of text without a newline. */
  type Line = s: string | '\n' !in s witness ""

  /**
    A prompt template of three lines: `title`, the task line
    `taskOpen + "Task: " + prompt + taskClose`, and `footer`.
  */
  datatype Template = Template(title: Line, taskOpen: Line, taskClose: Line, footer: Line)

  /** The lines shared by several templates. */
  const SlashOpen: Line := "// "
  const SlashFooter: Line := "// Generated code:"
  const HashOpen: Line := "# "
  const HashFooter: Line := "# Generated code:"
  const NoClose: Line := ""

  const PythonTemplate := Template("# Python Code", HashOpen, NoClose, HashFooter)
  const JavaScriptTemplate := Template("// JavaScript Code", SlashOpen, NoClose, SlashFooter)
  const JavaTemplate := Template("// Java Code", SlashOpen, NoClose, SlashFooter)
  const CppTemplate := Template("// C++ Code", SlashOpen, NoClose, SlashFooter)
  const GoTemplate := Template("// Go Code", SlashOpen, NoClose, SlashFooter)
  const RustTemplate := Template("// Rust Code", SlashOpen, NoClose, SlashFooter)
  const HtmlTemplate := Template("<!-- HTML Code -->", "<!-- ", " -->", "<!-- Generated code: -->")
  const CssTemplate := Template("/* CSS Code */", "/* ", " */", "/* Generated code: */")
  const SqlTemplate := Template("-- SQL Code", "-- ", NoClose, "-- Generated code:")
  const BashTemplate := Template("#!/bin/bash", HashOpen, NoClose, HashFooter)

  /** The ten language templates, keyed by lower-case language name. */
  function LanguageTemplate(key: string): Option<Template> {
    if key == "python" then Some(PythonTemplate)
    else if key == "javascript" then Some(JavaScriptTemplate)
    else if key == "java" then Some(JavaTemplate)
    else if key == "cpp" then Some(CppTemplate)
    else if key == "go" then Some(GoTemplate)
    else if key == "rust" then Some(RustTemplate)
    else if key == "html" then Some(HtmlTemplate)
    else if key == "css" then Some(CssTemplate)
    else if key == "sql" then Some(SqlTemplate)
    else if key == "bash" then Some(BashTemplate)
    else None
  }

  /** The template used when no language, or an unknown one, is given. */
  const GenericTemplate := Template("// Code Generation", SlashOpen, NoClose, SlashFooter)

  /**
    The template `_format_prompt` picks: the language's own one, looked up by its
    lower-cased name, or the generic one. Only the generic template has the
    "// Code Generation" title, so that title appears exactly when the language
    is absent or unknown, and then the whole template is the generic one.
  */
  function TemplateFor(language: Option<string>): (t: Template)
    ensures language.Some? && LanguageTemplate(ToLower(language.value)).Some? ==>
              t == LanguageTemplate(ToLower(language.value)).value
    ensures t.title == "// Code Generation" <==>
              language.None? || LanguageTemplate(ToLower(language.value)).None?
    ensures language.None? || LanguageTemplate(ToLower(language.value)).None? ==> t == GenericTemplate
  {
    if language.Some? && language.value != "" && LanguageTemplate(ToLower(language.value)).Some? then
      LanguageTemplate(ToLower(language.value)).value
    else
      GenericTemplate
  }

  /** The task line of a template with the prompt substituted verbatim. */
  function TaskLine(t: Template, prompt: string): string {
    t.taskOpen + "Task: " + prompt + t.taskClose
  }

  /** A template filled in: its three lines, each followed by a newline. */
  function Render(t: Template, prompt: string): string {
    t.title + "\n" + TaskLine(t, prompt) + "\n" + t.footer + "\n"
  }

  /**
    `_format_prompt`: the chosen template filled in with the prompt. The result
    opens with the template's title line and holds "Task: " followed by the prompt
    verbatim.
  */
  function FormatPrompt(prompt: string, language: Option<string>): (r: string)
    ensures StartsWith(r, TemplateFor(language).title + "\n")
    ensures Contains(r, "Task: " + prompt)
  {
    RenderHolds(TemplateFor(language), prompt);
    Render(TemplateFor(language), prompt)
  }

  /** A filled template opens with its title line and holds the task text. */
  lemma RenderHolds(t: Template, prompt: string)
    ensures StartsWith(Render(t, prompt), t.title + "\n")
    ensures Contains(Render(t, prompt), "Task: " + prompt)
  {
    var task := "Task: " + prompt;
    var first := t.title + "\n";
    var head := first + t.taskOpen;
    var tail := t.taskClose + "\n" + t.footer + "\n";
    var rest := TaskLine(t, prompt) + "\n" + t.footer + "\n";
    var r := Render(t, prompt);
    assert r == first + rest;
    assert r[..|first|] == first;
    assert r == head + task + tail;
    ContainsMiddle(head, task, tail);
  }

  /** A template filled with a one-line prompt is three newline-terminated lines. */
  lemma RenderLines(t: Template, prompt: string)
    requires '\n' !in prompt
    ensures Split(Render(t, prompt)) == [t.title, TaskLine(t, prompt), t.footer, ""]
  {
    var task := TaskLine(t, prompt);
    assert '\n' !in task by {
      forall c | c in task ensures c != '\n' {
        assert c in t.taskOpen || c in "Task: " || c in prompt || c in t.taskClose;
      }
    }
    var lines := [t.title, task, t.footer, ""];
    assert Join(lines[3..]) == "";
    assert Join(lines[2..]) == t.footer + "\n" + "";
    assert Join(lines[1..]) == task + "\n" + Join(lines[2..]);
    assert Join(lines) == Render(t, prompt);
    SplitJoin(lines);
  }

  /**
    For a prompt on one line, the formatted prompt is exactly three
    newline-terminated lines, the second holding "Task: " followed by the prompt.
  */
  lemma FormatPromptLines(prompt: string, language: Option<string>)
    requires '\n' !in prompt
    ensures var t := TemplateFor(language);
      && Split(FormatPrompt(prompt, language)) == [t.title, TaskLine(t, prompt), t.footer, ""]
      && Contains(TaskLine(t, prompt), "Task: " + prompt)
  {
    var t := TemplateFor(language);
    assert FormatPrompt(prompt, language) == Render(t, prompt);
    RenderLines(t, prompt);
    TaskLineHoldsPrompt(t, prompt);
  }

  /** The task line holds "Task: " followed by the prompt. */
  lemma TaskLineHoldsPrompt(t: Template, prompt: string)
    ensures Contains(TaskLine(t, prompt), "Task: " + prompt)
  {
    assert TaskLine(t, prompt) == t.taskOpen + ("Task: " + prompt) + t.taskClose;
    ContainsMiddle(t.taskOpen, "Task: " + prompt, t.taskClose);
  }

  // ---------------------------------------------------------------------------
  // Generation profiles
  // ---------------------------------------------------------------------------

  /** The fields of a `GenerationConfig` that the service sets. */
  datatype GenerationConfig = GenerationConfig(
    maxLength: int,
    temperature: real,
    doSample: bool,
    padTokenId: int,
    eosTokenId: int,
    topP: real,
    topK: int,
    repetitionPenalty: real,
    numReturnSequences: int)

  datatype Profile = Default | Creative | Precise

  /** The three base profiles built in the constructor. */
  function BaseConfig(p: Profile): GenerationConfig {
    match p
    case Default => GenerationConfig(512, 0.7, true, 50256, 50256, 0.9, 50, 1.1, 1)
    case Creative => GenerationConfig(1024, 0.9, true, 50256, 50256, 0.95, 100, 1.0, 1)
    case Precise => GenerationConfig(256, 0.3, true, 50256, 50256, 0.7, 20, 1.2, 1)
  }

  /** Python truthiness of an optional temperature: present and non-zero. */
  predicate Truthy(temperature: Option<real>) {
    temperature.Some? && temperature.value != 0.0
  }

  /** The profile `_get_generation_config` starts from. */
  function SelectProfile(temperature: Option<real>): (p: Profile)
    ensures p == Creative <==> Truthy(temperature) && temperature.value >= 0.8
    ensures p == Precise <==> Truthy(temperature) && temperature.value <= 0.4
    ensures p == Default <==> !Truthy(temperature) || 0.4 < temperature.value < 0.8
  {
    if Truthy(temperature) && temperature.value >= 0.8 then Creative
    else if Truthy(temperature) && temperature.value <= 0.4 then Precise
    else Default
  }

  /**
    `_get_generation_config`: the caller's length, the caller's temperature when
    truthy and the profile's otherwise, and every other field from the profile.
  */
  function GetGenerationConfig(temperature: Option<real>, maxLength: int): (c: GenerationConfig)
    ensures var base := BaseConfig(SelectProfile(temperature));
      && c.maxLength == maxLength
      && c.temperature == (if Truthy(temperature) then temperature.value else base.temperature)
      && c.doSample == base.doSample && c.padTokenId == base.padTokenId
      && c.eosTokenId == base.eosTokenId && c.topP == base.topP && c.topK == base.topK
      && c.repetitionPenalty == base.repetitionPenalty
      && c.numReturnSequences == base.numReturnSequences
  {
    var base := BaseConfig(SelectProfile(temperature));
    base.(maxLength := maxLength,
          temperature := if Truthy(temperature) then temperature.value else base.temperature)
  }

  /** A missing or zero temperature falls back to the default profile and its temperature 0.7. */
  lemma FalsyTemperatureUsesDefault(temperature: Option<real>, maxLength: int)
    requires !Truthy(temperature)
    ensures GetGenerationConfig(temperature, maxLength) == BaseConfig(Default).(maxLength := maxLength)
    ensures GetGenerationConfig(temperature, maxLength).temperature == 0.7
  {
  }

  // ---------------------------------------------------------------------------
  // Post-processing
  // ---------------------------------------------------------------------------

  /** The text `_post_process_code` has before any language fix. */
  function Trimmed(code: string): (r: string)
    ensures r == [] <==> IsBlank(code)
    ensures r != [] ==> r == Strip(code) + "\n"
  {
    var s := Strip(code);
    if s == [] then [] else s + "\n"
  }

  datatype LanguageFix = PythonFix | CStyleFix | NoFix

  /** Which fixer a language selects (by its lower-cased name). */
  function FixFor(language: Option<string>): (f: LanguageFix)
    ensures f == PythonFix <==> language.Some? && ToLower(language.value) == "python"
    ensures f == CStyleFix <==> language.Some? && (ToLower(language.value) == "javascript" || ToLower(language.value) == "java" || ToLower(language.value) == "cpp")
  {
    if language.Some? && language.value != "" then
      var lang := ToLower(language.value);
      if lang == "python" then PythonFix
      else if lang == "javascript" || lang == "java" || lang == "cpp" then CStyleFix
      else NoFix
    else NoFix
  }

  /** The post-processed text, as a function of the trimmed text. */
  function ApplyFix(f: LanguageFix, text: string): string {
    match f
    case PythonFix => PythonIndented(text)
    case CStyleFix => CStyleFixed(text)
    case NoFix => text
  }

  /** The last line of stripped, non-empty text is not blank. */
  lemma LastLineNotBlank(text: string)
    requires IsStripped(text) && text != []
    ensures var all := Split(text); !IsBlank(all[|all| - 1])
  {
    SplitLast(text);
    var all := Split(text);
    var last := all[|all| - 1];
    assert !IsSpace(last[|last| - 1]);
  }

  /** The lines of non-empty stripped text, joined back with a final newline, are the trimmed text. */
  lemma TrimmedJoin(code: string)
    requires Strip(code) != []
    ensures Trimmed(code) == Join(Split(Strip(code))) + "\n"
  {
    JoinSplit(Strip(code));
  }

  /**
    `_post_process_code`: strip, drop blank trailing lines, end with one newline,
    then apply the language's fixer.
  */
  method PostProcessCode(code: string, language: Option<string>) returns (r: string)
    ensures r == ApplyFix(FixFor(language), Trimmed(code))
  {
    var text := Strip(code);
    var lines := Split(text);
    ghost var all := lines;
    if text != [] {
      LastLineNotBlank(text);
      TrimmedJoin(code);
    }
    while lines != [] && Strip(lines[|lines| - 1]) == []
      invariant |lines| <= |all| && lines == all[..|lines|]
      invariant |lines| < |all| ==> text == []
    {
      lines := lines[..|lines| - 1];
    }
    r := text;
    if lines != [] {
      assert lines == all;
      r := Join(lines) + "\n";
    }
    ghost var trimmed := r;
    assert trimmed == Trimmed(code);
    if language.Some? && language.value != "" {
      var lang := ToLower(language.value);
      if lang == "python" {
        r := FixPythonIndentation(r);
      } else if lang == "javascript" || lang == "java" || lang == "cpp" {
        r := FixCStyleSyntax(r);
      }
    }
  }

  // ---------------------------------------------------------------------------
  // The Python re-indenter
  // ---------------------------------------------------------------------------

  /** Line starts that end a block. */
  const BlockEnders := ["return ", "pass", "break", "continue"]

  /** Line starts that continue a compound statement one level out. */
  const BlockContinuations := ["elif ", "except ", "finally"]

  /** A stripped line that is written one level further out than the running indent. */
  predicate IsDedent(stripped: string) {
    StartsWithAny(stripped, BlockEnders) || StartsWithAny(stripped, BlockContinuations)
  }

  /** The indent a stripped, non-blank line is written at, given the running indent. */
  function EmitLevel(stripped: string, level: nat): (e: nat)
    ensures IsDedent(stripped) ==> e == if level >= 4 then level - 4 else 0
    ensures !IsDedent(stripped) ==> e == level
    ensures level % 4 == 0 ==> e % 4 == 0
  {
    if IsDedent(stripped) then (if level >= 4 then level - 4 else 0) else level
  }

  /** The running indent after a line written at `emitted`: 4 more after a trailing ':'. */
  function LevelAfter(stripped: string, emitted: nat): (r: nat)
    ensures EndsWith(stripped, ":") ==> r == emitted + 4
    ensures !EndsWith(stripped, ":") ==> r == emitted
    ensures emitted % 4 == 0 ==> r % 4 == 0
  {
    if EndsWith(stripped, ":") then emitted + 4 else emitted
  }

  /** One line of the re-indenter: the line written and the running indent after it. */
  function IndentStep(line: string, level: nat): (r: (string, nat))
    ensures level % 4 == 0 ==> r.1 % 4 == 0
  {
    var s := Strip(line);
    if s == [] then ("", level)
    else
      var e := EmitLevel(s, level);
      (Spaces(e) + s, LevelAfter(s, e))
  }

  /** The re-indented lines, and the running indent after them, starting from running indent `level`. */
  function Indent(lines: seq<string>, level: nat): (r: (seq<string>, nat))
    ensures |r.0| == |lines|
    ensures level % 4 == 0 ==> r.1 % 4 == 0
  {
    if lines == [] then ([], level)
    else
      var prev := Indent(lines[..|lines| - 1], level);
      var step := IndentStep(lines[|lines| - 1], prev.1);
      (prev.0 + [step.0], step.1)
  }

  /** Re-indenting one more line extends the output by that line's step. */
  lemma IndentSnoc(lines: seq<string>, level: nat, i: nat)
    requires i < |lines|
    ensures var prev := Indent(lines[..i], level);
      var step := IndentStep(lines[i], prev.1);
      Indent(lines[..i + 1], level) == (prev.0 + [step.0], step.1)
  {
    assert lines[..i + 1][..i] == lines[..i];
  }

  /** `_fix_python_indentation` as a function of the text. */
  function PythonIndented(code: string): string {
    Join(Indent(Split(code), 0).0)
  }

  /** `_fix_python_indentation`: one pass over the lines carrying the indent counter. */
  method FixPythonIndentation(code: string) returns (r: string)
    ensures r == PythonIndented(code)
  {
    var lines := Split(code);
    var fixed: seq<string> := [];
    var level: nat := 0;
    for i := 0 to |lines|
      invariant (fixed, level) == Indent(lines[..i], 0)
    {
      IndentSnoc(lines, 0, i);
      var stripped := Strip(lines[i]);
      if stripped == [] {
        fixed := fixed + [""];
        continue;
      }
      if IsDedent(stripped) {
        level := if level >= 4 then level - 4 else 0;
      }
      fixed := fixed + [Spaces(level) + stripped];
      if EndsWith(stripped, ":") {
        level := level + 4;
      }
    }
    assert lines[..|lines|] == lines;
    r := Join(fixed);
  }

  /**
    Line `i` of the re-indented text: a blank line becomes empty, any other line
    is its stripped text behind `EmitLevel` spaces, where the running indent `at`
    reached before it is a multiple of 4; a dedent line is written 4 further out
    (never below 0) and a trailing ':' raises the running indent by 4 after it.
  */
  lemma IndentAt(lines: seq<string>, level: nat, i: nat)
    requires i < |lines| && level % 4 == 0
    ensures var s := Strip(lines[i]);
      var at := Indent(lines[..i], level).1;
      && at % 4 == 0
      && Indent(lines, level).0[i] == (if s == [] then "" else Spaces(EmitLevel(s, at)) + s)
      && Indent(lines[..i + 1], level).1 == (if s == [] then at else LevelAfter(s, EmitLevel(s, at)))
  {
    IndentAtStep(lines, level, i);
  }

  /** Line `i` of the output is the step taken on line `i` from the indent reached before it. */
  lemma IndentAtStep(lines: seq<string>, level: nat, i: nat)
    requires i < |lines|
    ensures var step := IndentStep(lines[i], Indent(lines[..i], level).1);
      Indent(lines, level).0[i] == step.0 && Indent(lines[..i + 1], level).1 == step.1
  {
    var prev := Indent(lines[..i], level);
    var step := IndentStep(lines[i], prev.1);
    var upto := Indent(lines[..i + 1], level);
    var full := Indent(lines, level).0;
    IndentSnoc(lines, level, i);
    assert upto.0 == prev.0 + [step.0] && |prev.0| == i;
    IndentPrefix(lines, level, i + 1);
    assert upto.0 == full[..i + 1];
    assert full[i] == upto.0[i] == step.0;
  }

  /** Re-indenting a prefix of the lines gives the same prefix of the output. */
  lemma {:induction false} IndentPrefix(lines: seq<string>, level: nat, j: nat)
    requires j <= |lines|
    ensures Indent(lines[..j], level).0 == Indent(lines, level).0[..j]
  {
    if j < |lines| {
      var init := lines[..|lines| - 1];
      assert init[..j] == lines[..j];
      IndentPrefix(init, level, j);
      var prev := Indent(init, level);
      assert Indent(lines, level).0 == prev.0 + [IndentStep(lines[|lines| - 1], prev.1).0];
      assert (prev.0 + [IndentStep(lines[|lines| - 1], prev.1).0])[..j] == prev.0[..j];
    } else {
      assert lines[..j] == lines;
    }
  }

  /** Re-indented lines hold no newline when the input lines hold none. */
  lemma {:induction false} IndentNoNewlines(lines: seq<string>, level: nat)
    requires NoNewlines(lines)
    ensures NoNewlines(Indent(lines, level).0)
  {
    if lines != [] {
      var n := |lines|;
      var init := lines[..n - 1];
      IndentNoNewlines(init, level);
      var prev := Indent(init, level);
      var out := IndentStep(lines[n - 1], prev.1).0;
      assert '\n' !in out by {
        forall c | c in out ensures c != '\n' {
          if c in Strip(lines[n - 1]) { StripChars(lines[n - 1], c); }
        }
      }
      var r := Indent(lines, level).0;
      forall k | 0 <= k < |r| ensures '\n' !in r[k] {
        if k < n - 1 { assert r[k] == prev.0[k]; }
      }
    }
  }

  /** A re-indented line is stripped back to the same text, so it re-indents the same way. */
  lemma IndentStepStable(line: string, level: nat)
    ensures IndentStep(IndentStep(line, level).0, level) == IndentStep(line, level)
  {
    var s := Strip(line);
    if s != [] {
      StripIndented(EmitLevel(s, level), s);
    }
  }

  /** Re-indenting already re-indented lines changes nothing, running indent included. */
  lemma {:induction false} IndentStable(lines: seq<string>, level: nat)
    ensures Indent(Indent(lines, level).0, level) == Indent(lines, level)
  {
    if lines != [] {
      var n := |lines|;
      var prev := Indent(lines[..n - 1], level);
      var out := Indent(lines, level).0;
      assert out[..n - 1] == prev.0;
      IndentStable(lines[..n - 1], level);
      IndentStepStable(lines[n - 1], prev.1);
    }
  }

  /**
    The re-indenter keeps the number of lines and is idempotent on whole texts;
    each output line is described by `IndentAt`.
  */
  lemma PythonIndentedLines(code: string)
    ensures Split(PythonIndented(code)) == Indent(Split(code), 0).0
    ensures |Split(PythonIndented(code))| == |Split(code)|
    ensures PythonIndented(PythonIndented(code)) == PythonIndented(code)
  {
    var out := Indent(Split(code), 0).0;
    IndentNoNewlines(Split(code), 0);
    SplitJoin(out);
    IndentStable(Split(code), 0);
  }

  // ---------------------------------------------------------------------------
  // The C-style fixer
  // ---------------------------------------------------------------------------

  /** Line endings after which no semicolon is added. */
  const Terminators := ["{", "}", ";", ":"]

  /** Line starts that open a control statement: no semicolon is added. */
  const ControlPrefixes := ["if ", "else ", "for ", "while ", "switch ", "case "]

  /** One line of `_fix_c_style_syntax`. */
  function FixCLine(line: string): string {
    var s := Strip(line);
    if s == [] then ""
    else if !EndsWithAny(s, Terminators) && !StartsWithAny(s, ControlPrefixes) then s + ";"
    else s
  }

  /** Every line of the input, fixed. */
  function FixCLines(lines: seq<string>): (r: seq<string>)
    ensures |r| == |lines| && forall k :: 0 <= k < |lines| ==> r[k] == FixCLine(lines[k])
  {
    if lines == [] then []
    else FixCLines(lines[..|lines| - 1]) + [FixCLine(lines[|lines| - 1])]
  }

  /** Fixing one more line extends the fixed prefix by that line. */
  lemma FixCLinesSnoc(lines: seq<string>, i: nat)
    requires i < |lines|
    ensures FixCLines(lines[..i + 1]) == FixCLines(lines[..i]) + [FixCLine(lines[i])]
  {
    assert lines[..i + 1][..i] == lines[..i];
  }

  /** `_fix_c_style_syntax` as a function of the text. */
  function CStyleFixed(code: string): string {
    Join(FixCLines(Split(code)))
  }

  /** `_fix_c_style_syntax`: one pass over the lines. */
  method FixCStyleSyntax(code: string) returns (r: string)
    ensures r == CStyleFixed(code)
  {
    var lines := Split(code);
    var fixed: seq<string> := [];
    for i := 0 to |lines|
      invariant fixed == FixCLines(lines[..i])
    {
      FixCLinesSnoc(lines, i);
      var stripped := Strip(lines[i]);
      if stripped == [] {
        fixed := fixed + [""];
        continue;
      }
      if stripped != [] && !EndsWithAny(stripped, Terminators) && !StartsWithAny(stripped, ControlPrefixes) {
        stripped := stripped + ";";
      }
      fixed := fixed + [stripped];
    }
    assert lines[..|lines|] == lines;
    r := Join(fixed);
  }

  /** A fixed line is empty exactly when the input line is blank. */
  lemma FixCLineBlank(line: string)
    ensures FixCLine(line) == [] <==> IsBlank(line)
  {
    var s := Strip(line);
    if s != [] {
      assert |FixCLine(line)| >= |s|;
    }
  }

  /** A non-empty fixed line is stripped and ends in one of `{ } ; :` or starts with a control keyword. */
  lemma FixCLineForm(line: string)
    ensures var o := FixCLine(line);
      o != [] ==> IsStripped(o) && (EndsWithAny(o, Terminators) || StartsWithAny(o, ControlPrefixes))
  {
    var s := Strip(line);
    if s != [] && !EndsWithAny(s, Terminators) && !StartsWithAny(s, ControlPrefixes) {
      StrippedSemicolon(s);
      SemicolonTerminates(s);
    }
  }

  /** Fixing a line never introduces a line break. */
  lemma FixCLineNoNewline(line: string)
    requires '\n' !in line
    ensures '\n' !in FixCLine(line)
  {
    var s := Strip(line);
    if s != [] && !EndsWithAny(s, Terminators) && !StartsWithAny(s, ControlPrefixes) {
      var o := s + ";";
      forall c | c in o ensures c != '\n' {
        if c in s { StripChars(line, c); }
      }
    }
  }

  /**
    A fixed line is empty exactly when the input line is blank; otherwise it is
    stripped and ends in one of `{ } ; :` or starts with a control keyword.
  */
  lemma FixCLineShape(line: string)
    ensures var o := FixCLine(line);
      && (o == [] <==> IsBlank(line))
      && (o != [] ==> IsStripped(o) && (EndsWithAny(o, Terminators) || StartsWithAny(o, ControlPrefixes)))
      && ('\n' !in line ==> '\n' !in o)
  {
    FixCLineBlank(line);
    FixCLineForm(line);
    if '\n' !in line {
      FixCLineNoNewline(line);
    }
  }

  /** A stripped line stays stripped when a semicolon is added. */
  lemma StrippedSemicolon(s: string)
    requires s != [] && IsStripped(s)
    ensures IsStripped(s + ";")
  {
    var o := s + ";";
    assert o[0] == s[0] && o[|o| - 1] == ';';
  }

  /** A line the fixer has given a semicolon ends in one of the terminators. */
  lemma SemicolonTerminates(s: string)
    ensures EndsWithAny(s + ";", Terminators)
  {
    var o := s + ";";
    assert o[|o| - 1..] == ";";
    assert EndsWith(o, Terminators[2]);
    EndsWithAnyIff(o, Terminators);
  }

  /** Fixing a fixed line changes nothing. */
  lemma FixCLineStable(line: string)
    ensures FixCLine(FixCLine(line)) == FixCLine(line)
  {
    var o := FixCLine(line);
    FixCLineShape(line);
    if o != [] {
      StripOfStripped(o);
      assert EndsWithAny(o, Terminators) || StartsWithAny(o, ControlPrefixes);
    } else {
      assert IsBlank(o);
    }
  }

  /** Every fixed line of newline-free input is newline-free and, when non-empty, well formed. */
  lemma FixCLinesShape(lines: seq<string>)
    requires NoNewlines(lines)
    ensures NoNewlines(FixCLines(lines))
    ensures var out := FixCLines(lines); forall k :: 0 <= k < |out| && out[k] != [] ==>
      IsStripped(out[k]) && (EndsWithAny(out[k], Terminators) || StartsWithAny(out[k], ControlPrefixes))
  {
    var out := FixCLines(lines);
    forall k | 0 <= k < |out|
      ensures '\n' !in out[k]
      ensures out[k] != [] ==> IsStripped(out[k]) && (EndsWithAny(out[k], Terminators) || StartsWithAny(out[k], ControlPrefixes))
    {
      FixCLineForm(lines[k]);
      FixCLineNoNewline(lines[k]);
    }
  }

  /** Fixing fixed lines changes nothing. */
  lemma FixCLinesStable(lines: seq<string>)
    ensures FixCLines(FixCLines(lines)) == FixCLines(lines)
  {
    var out := FixCLines(lines);
    forall k | 0 <= k < |out| ensures FixCLine(out[k]) == out[k] {
      FixCLineStable(lines[k]);
    }
  }

  /**
    The C-style fixer keeps the number of lines, leaves every non-blank line
    stripped and terminated (or opening a control statement), and is idempotent.
  */
  lemma CStyleFixedLines(code: string)
    ensures var out := Split(CStyleFixed(code));
      && out == FixCLines(Split(code))
      && |out| == |Split(code)|
      && forall k :: 0 <= k < |out| && out[k] != [] ==>
           IsStripped(out[k]) && (EndsWithAny(out[k], Terminators) || StartsWithAny(out[k], ControlPrefixes))
    ensures CStyleFixed(CStyleFixed(code)) == CStyleFixed(code)
  {
    var lines := Split(code);
    var out := FixCLines(lines);
    FixCLinesShape(lines);
    assert |out| == |lines| >= 1;
    SplitJoin(out);
    assert Split(CStyleFixed(code)) == out;
    FixCLinesStable(lines);
    assert CStyleFixed(CStyleFixed(code)) == Join(FixCLines(out));
  }
}
