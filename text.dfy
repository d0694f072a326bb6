/**
  The pieces of Python's `str` that the service's text handling relies on:
  `isspace`, `strip`, `split('\n')`, `'\n'.join`, `lower`, `startswith`,
  `endswith` and the substring test `sub in s`.
*/
module Text {

  /** Python's `str.isspace` for one character: exactly the characters `strip()` removes. */
  predicate IsSpace(c: char) {
    || c == ' ' || c == '\t' || c == '\n' || c == '\r' || c == '\U{0B}' || c == '\U{0C}'
    || ('\U{1C}' <= c <= '\U{1F}') || c == '\U{85}' || c == '\U{A0}' || c == '\U{1680}'
    || ('\U{2000}' <= c <= '\U{200A}') || c == '\U{2028}' || c == '\U{2029}'
    || c == '\U{202F}' || c == '\U{205F}' || c == '\U{3000}'
  }

  /** Every character is whitespace (so `s.strip()` is empty, i.e. falsy). */
  predicate IsBlank(s: string) {
    forall i :: 0 <= i < |s| ==> IsSpace(s[i])
  }

  /** Neither end of `s` is whitespace: `s` is what `strip()` can return. */
  predicate IsStripped(s: string) {
    s != [] ==> !IsSpace(s[0]) && !IsSpace(s[|s| - 1])
  }

  /** A whitespace character in front of a blank string leaves it blank. */
  lemma BlankCons(c: char, t: string)
    requires IsSpace(c) && IsBlank(t)
    ensures IsBlank([c] + t)
  {
    forall i | 0 <= i < |[c] + t| ensures IsSpace(([c] + t)[i]) {
      if i > 0 { assert ([c] + t)[i] == t[i - 1]; }
    }
  }

  /** A whitespace character after a blank string leaves it blank. */
  lemma BlankSnoc(t: string, c: char)
    requires IsBlank(t) && IsSpace(c)
    ensures IsBlank(t + [c])
  {
    forall i | 0 <= i < |t + [c]| ensures IsSpace((t + [c])[i]) {
      if i < |t| { assert (t + [c])[i] == t[i]; }
    }
  }

  /** `s.lstrip()`: a suffix of `s` that does not start with whitespace. */
  function LStrip(s: string): (r: string)
    ensures |r| <= |s| && r == s[|s| - |r|..]
    ensures r != [] ==> !IsSpace(r[0])
    ensures r == [] <==> IsBlank(s)
  {
    if s != [] && IsSpace(s[0]) then
      var r := LStrip(s[1..]);
      assert IsBlank(s[1..]) ==> IsBlank(s) by {
        if IsBlank(s[1..]) {
          forall i | 0 <= i < |s| ensures IsSpace(s[i]) {
            if i > 0 { assert s[i] == s[1..][i - 1]; }
          }
        }
      }
      r
    else
      s
  }

  /** `s.rstrip()`: a prefix of `s` that does not end with whitespace. */
  function RStrip(s: string): (r: string)
    ensures |r| <= |s| && r == s[..|r|]
    ensures r != [] ==> !IsSpace(r[|r| - 1])
    ensures r == [] <==> IsBlank(s)
  {
    if s != [] && IsSpace(s[|s| - 1]) then
      var r := RStrip(s[..|s| - 1]);
      assert IsBlank(s[..|s| - 1]) ==> IsBlank(s) by {
        if IsBlank(s[..|s| - 1]) {
          forall i | 0 <= i < |s| ensures IsSpace(s[i]) {
            if i < |s| - 1 { assert s[i] == s[..|s| - 1][i]; }
          }
        }
      }
      r
    else
      s
  }

  /** `s.strip()`: empty exactly when `s` is blank, otherwise free of whitespace at both ends. */
  function Strip(s: string): (r: string)
    ensures r == [] <==> IsBlank(s)
    ensures IsStripped(r)
    ensures |r| <= |s|
  {
    RStrip(LStrip(s))
  }

  /** `lstrip()` removes only whitespace: the dropped prefix is blank. */
  lemma {:induction false} LStripDropsBlank(s: string)
    ensures IsBlank(s[..|s| - |LStrip(s)|])
  {
    if s != [] && IsSpace(s[0]) {
      var t := s[1..];
      LStripDropsBlank(t);
      var dropped := t[..|t| - |LStrip(t)|];
      assert s[..|s| - |LStrip(s)|] == [s[0]] + dropped;
      BlankCons(s[0], dropped);
    }
  }

  /** `rstrip()` removes only whitespace: the dropped suffix is blank. */
  lemma {:induction false} RStripDropsBlank(s: string)
    ensures IsBlank(s[|RStrip(s)|..])
  {
    if s != [] && IsSpace(s[|s| - 1]) {
      var t := s[..|s| - 1];
      RStripDropsBlank(t);
      var dropped := t[|RStrip(t)|..];
      assert s[|RStrip(s)|..] == dropped + [s[|s| - 1]];
      BlankSnoc(dropped, s[|s| - 1]);
    }
  }

  /** Where the text `strip()` keeps begins: the length of the prefix `lstrip()` drops. */
  function StripStart(s: string): nat {
    |s| - |LStrip(s)|
  }

  /**
    `strip()` keeps a slice of `s` and removes only whitespace: what lies before the
    slice (the part `lstrip()` drops) and what lies after it are both blank.
  */
  lemma StripIsBlankTrimmed(s: string)
    ensures StripStart(s) + |Strip(s)| <= |s|
    ensures Strip(s) == s[StripStart(s)..StripStart(s) + |Strip(s)|]
    ensures IsBlank(s[..StripStart(s)])
    ensures IsBlank(s[StripStart(s) + |Strip(s)|..])
  {
    var l := LStrip(s);
    var r := RStrip(l);
    var i := StripStart(s);
    assert r == Strip(s) && l == s[i..] && r == l[..|r|];
    SliceOfSuffix(s, i, |r|);
    LStripDropsBlank(s);
    RStripDropsBlank(l);
  }

  /** A prefix of a suffix is a slice. */
  lemma SliceOfSuffix(s: string, i: nat, n: nat)
    requires i + n <= |s|
    ensures s[i..][..n] == s[i..i + n]
    ensures s[i..][n..] == s[i + n..]
  {
  }

  /** `strip()` only removes characters. */
  lemma StripChars(s: string, c: char)
    requires c in Strip(s)
    ensures c in s
  {
    var l := LStrip(s);
    var r := RStrip(l);
    assert r == Strip(s);
    var j :| 0 <= j < |r| && r[j] == c;
    assert r == l[..|r|] && l == s[|s| - |l|..];
    assert l[j] == c;
    assert s[|s| - |l| + j] == c;
  }

  /** A string that is already stripped is its own strip. */
  lemma StripOfStripped(s: string)
    requires IsStripped(s)
    ensures Strip(s) == s
  {
    if s != [] {
      assert !IsBlank(s) by { assert !IsSpace(s[0]); }
      assert LStrip(s) == s;
      assert RStrip(s) == s;
    }
  }

  /** `n` spaces, Python's `' ' * n`. */
  function Spaces(n: nat): (r: string)
    ensures |r| == n && forall i :: 0 <= i < n ==> r[i] == ' '
  {
    seq(n, _ => ' ')
  }

  /** Leading indentation does not survive `strip()`. */
  lemma {:induction false} StripIndented(n: nat, s: string)
    requires IsStripped(s) && s != []
    ensures Strip(Spaces(n) + s) == s
  {
    LStripSpaces(n, s);
    StripOfStripped(s);
    assert RStrip(s) == Strip(s);
  }

  lemma {:induction false} LStripSpaces(n: nat, s: string)
    requires s != [] && !IsSpace(s[0])
    ensures LStrip(Spaces(n) + s) == s
  {
    if n == 0 {
      assert Spaces(0) + s == s;
    } else {
      var t := Spaces(n) + s;
      assert t[0] == ' ';
      assert t[1..] == Spaces(n - 1) + s;
      LStripSpaces(n - 1, s);
    }
  }

  /** `s.split('\n')`: always at least one piece, none containing a newline. */
  function Split(s: string): (r: seq<string>)
    ensures |r| >= 1
    ensures forall i :: 0 <= i < |r| ==> '\n' !in r[i]
  {
    if s == [] then [""]
    else if s[0] == '\n' then [""] + Split(s[1..])
    else
      var rest := Split(s[1..]);
      [[s[0]] + rest[0]] + rest[1..]
  }

  /** `'\n'.join(lines)`. */
  function Join(lines: seq<string>): string {
    if |lines| == 0 then ""
    else if |lines| == 1 then lines[0]
    else lines[0] + "\n" + Join(lines[1..])
  }

  /** No piece of `lines` holds a newline: the pieces a split can produce. */
  predicate NoNewlines(lines: seq<string>) {
    forall i :: 0 <= i < |lines| ==> '\n' !in lines[i]
  }

  /** Joining the pieces of a split gives the text back. */
  lemma {:induction false} JoinSplit(s: string)
    ensures Join(Split(s)) == s
  {
    if s == [] {
    } else if s[0] == '\n' {
      JoinSplit(s[1..]);
      assert ([""] + Split(s[1..]))[1..] == Split(s[1..]);
      assert s == "\n" + s[1..];
    } else {
      var rest := Split(s[1..]);
      JoinSplit(s[1..]);
      var r := [[s[0]] + rest[0]] + rest[1..];
      if |rest| == 1 {
        assert Join(rest) == rest[0];
      } else {
        assert r[1..] == rest[1..];
        assert Join(rest) == rest[0] + "\n" + Join(rest[1..]);
      }
      assert s == [s[0]] + s[1..];
    }
  }

  /** Text without a newline splits into itself. */
  lemma {:induction false} SplitSingle(a: string)
    requires '\n' !in a
    ensures Split(a) == [a]
  {
    if a != [] {
      assert a[1..] == a[1..];
      assert '\n' !in a[1..] by {
        forall c | c in a[1..] ensures c != '\n' { assert c in a; }
      }
      SplitSingle(a[1..]);
      assert [a[0]] + a[1..] == a;
    }
  }

  /** A first line without a newline becomes the first piece of the split. */
  lemma {:induction false} SplitCons(a: string, rest: string)
    requires '\n' !in a
    ensures Split(a + "\n" + rest) == [a] + Split(rest)
  {
    var t := a + "\n" + rest;
    if a == [] {
      assert t[0] == '\n' && t[1..] == rest;
    } else {
      assert t[0] == a[0];
      assert t[1..] == a[1..] + "\n" + rest;
      assert '\n' !in a[1..] by {
        forall c | c in a[1..] ensures c != '\n' { assert c in a; }
      }
      SplitCons(a[1..], rest);
      assert [a[0]] + a[1..] == a;
    }
  }

  /** Splitting a join of newline-free pieces gives the pieces back. */
  lemma {:induction false} SplitJoin(lines: seq<string>)
    requires |lines| >= 1 && NoNewlines(lines)
    ensures Split(Join(lines)) == lines
  {
    if |lines| == 1 {
      SplitSingle(lines[0]);
    } else {
      SplitCons(lines[0], Join(lines[1..]));
      SplitJoin(lines[1..]);
      assert [lines[0]] + lines[1..] == lines;
    }
  }

  /** The last piece of a split is the text after the last newline. */
  lemma {:induction false} SplitLast(s: string)
    requires s != [] && s[|s| - 1] != '\n'
    ensures var r := Split(s); r[|r| - 1] != [] && r[|r| - 1][|r[|r| - 1]| - 1] == s[|s| - 1]
  {
    if |s| == 1 {
      assert Split(s[1..]) == [""];
    } else {
      var t := s[1..];
      assert t[|t| - 1] == s[|s| - 1];
      SplitLast(t);
      var rest := Split(t);
      var last := rest[|rest| - 1];
      if s[0] == '\n' {
        assert Split(s) == [""] + rest;
      } else if |rest| == 1 {
        assert Split(s) == [[s[0]] + last];
      } else {
        assert Split(s) == [[s[0]] + rest[0]] + rest[1..];
        assert Split(s)[|Split(s)| - 1] == last;
      }
    }
  }

  /** Python's `s.startswith(p)`. */
  predicate StartsWith(s: string, p: string) {
    |p| <= |s| && s[..|p|] == p
  }

  /** Python's `s.endswith(p)`. */
  predicate EndsWith(s: string, p: string) {
    |p| <= |s| && s[|s| - |p|..] == p
  }

  /** Python's `s.startswith((p0, p1, ...))`. */
  predicate StartsWithAny(s: string, prefixes: seq<string>) {
    |prefixes| > 0 && (StartsWith(s, prefixes[0]) || StartsWithAny(s, prefixes[1..]))
  }

  /** Python's `s.endswith((p0, p1, ...))`. */
  predicate EndsWithAny(s: string, suffixes: seq<string>) {
    |suffixes| > 0 && (EndsWith(s, suffixes[0]) || EndsWithAny(s, suffixes[1..]))
  }

  /** `s.startswith(prefixes)` holds exactly when one of the prefixes starts `s`. */
  lemma {:induction false} StartsWithAnyIff(s: string, prefixes: seq<string>)
    ensures StartsWithAny(s, prefixes) <==> exists i :: 0 <= i < |prefixes| && StartsWith(s, prefixes[i])
  {
    if |prefixes| > 0 {
      StartsWithAnyIff(s, prefixes[1..]);
      if StartsWithAny(s, prefixes[1..]) {
        var i :| 0 <= i < |prefixes[1..]| && StartsWith(s, prefixes[1..][i]);
        assert StartsWith(s, prefixes[i + 1]);
      }
      if exists i :: 0 <= i < |prefixes| && StartsWith(s, prefixes[i]) {
        var i :| 0 <= i < |prefixes| && StartsWith(s, prefixes[i]);
        if i > 0 { assert StartsWith(s, prefixes[1..][i - 1]); }
      }
    }
  }

  /** The empty string starts with none of a list of non-empty prefixes. */
  lemma {:induction false} NoPrefixOfEmpty(prefixes: seq<string>)
    requires forall i :: 0 <= i < |prefixes| ==> prefixes[i] != []
    ensures !StartsWithAny("", prefixes)
  {
    if |prefixes| > 0 {
      assert prefixes[0] != [];
      NoPrefixOfEmpty(prefixes[1..]);
    }
  }

  /** `s.endswith(suffixes)` holds exactly when one of the suffixes ends `s`. */
  lemma {:induction false} EndsWithAnyIff(s: string, suffixes: seq<string>)
    ensures EndsWithAny(s, suffixes) <==> exists i :: 0 <= i < |suffixes| && EndsWith(s, suffixes[i])
  {
    if |suffixes| > 0 {
      EndsWithAnyIff(s, suffixes[1..]);
      if EndsWithAny(s, suffixes[1..]) {
        var i :| 0 <= i < |suffixes[1..]| && EndsWith(s, suffixes[1..][i]);
        assert EndsWith(s, suffixes[i + 1]);
      }
      if exists i :: 0 <= i < |suffixes| && EndsWith(s, suffixes[i]) {
        var i :| 0 <= i < |suffixes| && EndsWith(s, suffixes[i]);
        if i > 0 { assert EndsWith(s, suffixes[1..][i - 1]); }
      }
    }
  }

  /** `sub` occurs in `s` starting at index `i`. */
  predicate OccursAt(s: string, sub: string, i: int) {
    0 <= i && i + |sub| <= |s| && s[i..i + |sub|] == sub
  }

  /** Python's `sub in s`. */
  predicate Contains(s: string, sub: string) {
    exists i | 0 <= i <= |s| :: OccursAt(s, sub, i)
  }

  lemma ContainsMiddle(a: string, sub: string, b: string)
    ensures Contains(a + sub + b, sub)
  {
    assert OccursAt(a + sub + b, sub, |a|);
  }

  /** A string without the first character of `sub` does not contain `sub`. */
  lemma NotContainedWithoutFirst(s: string, sub: string)
    requires |sub| > 0 && sub[0] !in s
    ensures !Contains(s, sub)
  {
  }

  /** One character of Python's `str.lower()`, restricted to ASCII letters. */
  function LowerChar(c: char): (r: char)
    ensures 'A' <= c <= 'Z' ==> r as int == c as int + 32
    ensures !('A' <= c <= 'Z') ==> r == c
  {
    if 'A' <= c <= 'Z' then (c as int + 32) as char else c
  }

  /** Python's `s.lower()` on ASCII letters. */
  function ToLower(s: string): (r: string)
    ensures |r| == |s| && forall i :: 0 <= i < |s| ==> r[i] == LowerChar(s[i])
  {
    seq(|s|, i requires 0 <= i < |s| => LowerChar(s[i]))
  }
}
