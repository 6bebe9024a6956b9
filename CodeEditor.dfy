/** The code editor (src/components/CodeEditor.tsx): the file extension
    guessed from the code, the Tab key's two-space insertion, the line
    numbers and when the submit button is disabled. */
module CodeEditor {
  import opened JsStrings

  // ---------------------------------------------------------------------
  // The regular expressions of `detectFileExtension`

  /** The character classes the patterns use: `\s` and `\w`. */
  datatype CharClass = Space | Word

  predicate InClass(k: CharClass, c: char) {
    match k
    case Space => IsSpace(c)
    case Word => IsWordChar(c)
  }

  /** One regex item: a literal character, an optional literal (`x?`), or a
      class repeated at least once (`\s+`) or any number of times (`\s*`). */
  datatype Token = Lit(c: char) | Opt(o: char) | Plus(pk: CharClass) | Star(sk: CharClass)

  /** The tokens of a literal string. */
  function Lits(t: string): (r: seq<Token>)
    ensures |r| == |t|
    ensures forall i :: 0 <= i < |t| ==> r[i] == Lit(t[i])
  {
    seq(|t|, i requires 0 <= i < |t| => Lit(t[i]))
  }

  /** The tokens match a piece of `s` that starts at `i`, trying every way
      the repetitions and the optional character can go. */
  predicate MatchFrom(s: string, i: nat, toks: seq<Token>)
    requires i <= |s|
    decreases |s| - i, |toks|
  {
    if toks == [] then true
    else
      match toks[0]
      case Lit(c) => i < |s| && s[i] == c && MatchFrom(s, i + 1, toks[1..])
      case Opt(c) => (i < |s| && s[i] == c && MatchFrom(s, i + 1, toks[1..])) || MatchFrom(s, i, toks[1..])
      case Plus(k) => i < |s| && InClass(k, s[i]) && MatchFrom(s, i + 1, [Star(k)] + toks[1..])
      case Star(k) => MatchFrom(s, i, toks[1..]) || (i < |s| && InClass(k, s[i]) && MatchFrom(s, i + 1, toks))
  }

  /** The tokens match a piece of `s` that starts at `j`. */
  predicate MatchesAt(s: string, alt: seq<Token>, j: int) {
    0 <= j <= |s| && MatchFrom(s, j, alt)
  }

  /** `re.test(s)` for one alternative: a match starts somewhere from `i` on. */
  function SearchFrom(s: string, alt: seq<Token>, i: nat): (r: bool)
    requires i <= |s|
    ensures r <==> exists j :: i <= j && MatchesAt(s, alt, j)
    decreases |s| - i
  {
    if MatchFrom(s, i, alt) then
      assert MatchesAt(s, alt, i);
      true
    else if i == |s| then
      assert forall j :: i <= j && MatchesAt(s, alt, j) ==> j == i;
      false
    else
      var r := SearchFrom(s, alt, i + 1);
      assert forall j :: i <= j && MatchesAt(s, alt, j) ==> j == i || i + 1 <= j;
      r
  }

  /** One alternative of a pattern: a literal opening, then more tokens. */
  datatype Alt = Alt(prefix: string, rest: seq<Token>)

  function Tokens(a: Alt): seq<Token> {
    Lits(a.prefix) + a.rest
  }

  /** `re.test(s)` for an alternation: some alternative matches. */
  predicate Test(s: string, pattern: seq<Alt>) {
    exists k :: 0 <= k < |pattern| && SearchFrom(s, Tokens(pattern[k]), 0)
  }

  /** JavaScript: an import of React, a console log, a function keyword
      before an open parenthesis, or an arrow. */
  function JsPattern(): seq<Alt> {
    [Alt("import", [Plus(Space)] + Lits("React")), Alt("console.log", []),
     Alt("function", [Star(Space), Lit('(')]), Alt("=>", [])]
  }

  /** Python: `def` and white space, a print call, or an import of a name. */
  function PyPattern(): seq<Alt> {
    [Alt("def", [Plus(Space)]), Alt("print(", []), Alt("import", [Plus(Space), Plus(Word)])]
  }

  /** Java: a public class, or a standard-output println call. */
  function JavaPattern(): seq<Alt> {
    [Alt("public", [Plus(Space)] + Lits("class")), Alt("System.out.println", [])]
  }

  /** C++: an include directive, or an `int main` declaration. */
  function CppPattern(): seq<Alt> {
    [Alt("#include", []), Alt("int", [Plus(Space)] + Lits("main") + [Star(Space), Lit('(')])]
  }

  /** `/<?php/` as written: the `?` makes the `<` optional. */
  function PhpPattern(): seq<Alt> {
    [Alt("", [Opt('<')] + Lits("php"))]
  }

  /** `/<\?php/`: the PHP opening tag itself. */
  function PhpTagPattern(): seq<Alt> {
    [Alt("<?php", [])]
  }

  // ---------------------------------------------------------------------
  // Literal tokens and substrings

  /** Literal tokens match exactly where the string occurs. */
  lemma {:induction false} LiteralMatch(s: string, i: nat, t: string)
    requires i <= |s|
    ensures MatchFrom(s, i, Lits(t)) <==> OccursAt(s, t, i)
    decreases |t|
  {
    if t != [] {
      assert Lits(t)[1..] == Lits(t[1..]);
      if i < |s| {
        LiteralMatch(s, i + 1, t[1..]);
        if OccursAt(s, t, i) {
          assert s[i + 1..i + 1 + |t[1..]|] == s[i..i + |t|][1..];
        }
        if s[i] == t[0] && OccursAt(s, t[1..], i + 1) {
          assert s[i..i + |t|] == [s[i]] + s[i + 1..i + 1 + |t[1..]|];
        }
      }
    }
  }

  /** A match of `t`'s tokens followed by more tokens needs `t` at the start. */
  lemma {:induction false} LiteralPrefixNeeded(s: string, i: nat, t: string, rest: seq<Token>)
    requires i <= |s|
    requires MatchFrom(s, i, Lits(t) + rest)
    ensures OccursAt(s, t, i)
    decreases |t|
  {
    if t != [] {
      assert (Lits(t) + rest)[0] == Lit(t[0]);
      assert (Lits(t) + rest)[1..] == Lits(t[1..]) + rest;
      LiteralPrefixNeeded(s, i + 1, t[1..], rest);
      assert s[i..i + |t|] == [s[i]] + s[i + 1..i + 1 + |t[1..]|];
    }
  }

  /** An alternative that opens with a literal string does not match a
      string that lacks it. */
  lemma LiteralPrefixAbsent(s: string, t: string, rest: seq<Token>)
    requires !Includes(s, t)
    ensures !SearchFrom(s, Lits(t) + rest, 0)
  {
    forall j | MatchesAt(s, Lits(t) + rest, j) ensures OccursAt(s, t, j) {
      LiteralPrefixNeeded(s, j, t, rest);
    }
  }

  /** A literal alternative matches exactly when the string occurs. */
  lemma LiteralSearch(s: string, t: string)
    ensures SearchFrom(s, Lits(t), 0) <==> Includes(s, t)
  {
    forall j ensures MatchesAt(s, Lits(t), j) <==> OccursAt(s, t, j) {
      if 0 <= j <= |s| {
        LiteralMatch(s, j, t);
      }
    }
  }

  /** `/<?php/` matches every string that contains "php", with or without
      the `<` before it. */
  lemma PhpPatternMatchesAnyPhp(s: string)
    ensures Test(s, PhpPattern()) <==> Includes(s, "php")
  {
    var alt := Tokens(PhpPattern()[0]);
    assert alt == [Opt('<')] + Lits("php");
    assert alt[1..] == Lits("php");
    if Includes(s, "php") {
      var j :| OccursAt(s, "php", j);
      LiteralMatch(s, j, "php");
      assert MatchesAt(s, alt, j);
      assert SearchFrom(s, alt, 0);
    }
    if Test(s, PhpPattern()) {
      assert SearchFrom(s, alt, 0);
      var j :| 0 <= j && MatchesAt(s, alt, j);
      LiteralMatch(s, j, "php");
      if j < |s| && s[j] == '<' && MatchFrom(s, j + 1, alt[1..]) {
        LiteralMatch(s, j + 1, "php");
        assert OccursAt(s, "php", j + 1);
      } else {
        assert OccursAt(s, "php", j);
      }
    }
  }

  /** The tag pattern matches exactly the strings that contain "<?php". */
  lemma PhpTagPatternMatchesTag(s: string)
    ensures Test(s, PhpTagPattern()) <==> Includes(s, "<?php")
  {
    assert Tokens(PhpTagPattern()[0]) == Lits("<?php");
    LiteralSearch(s, "<?php");
  }

  /** A pattern none of whose literal openings occurs in `s` does not
      match it. */
  lemma NoTest(s: string, pattern: seq<Alt>)
    requires forall k :: 0 <= k < |pattern| ==> !Includes(s, pattern[k].prefix)
    ensures !Test(s, pattern)
  {
    forall k | 0 <= k < |pattern| ensures !SearchFrom(s, Tokens(pattern[k]), 0) {
      LiteralPrefixAbsent(s, pattern[k].prefix, pattern[k].rest);
    }
  }

  // ---------------------------------------------------------------------
  // detectFileExtension

  /** The patterns tried before PHP, in order. */
  function Detect(t: string, php: seq<Alt>): string {
    if Test(t, JsPattern()) then "js"
    else if Test(t, PyPattern()) then "py"
    else if Test(t, JavaPattern()) then "java"
    else if Test(t, CppPattern()) then "cpp"
    else if Test(t, php) then "php"
    else "txt"
  }

  /** None of the JavaScript, Python, Java and C++ patterns matches. */
  predicate NoEarlierMatch(t: string) {
    !Test(t, JsPattern()) && !Test(t, PyPattern()) && !Test(t, JavaPattern()) && !Test(t, CppPattern())
  }

  /** `detectFileExtension` as written: the trimmed code against the five
      patterns in order, the first match deciding, "txt" when none does. */
  function DetectFileExtension(code: string): (ext: string)
    ensures ext == "js" <==> Test(Trim(code), JsPattern())
    ensures ext == "py" <==> !Test(Trim(code), JsPattern()) && Test(Trim(code), PyPattern())
    ensures ext == "java" <==> (!Test(Trim(code), JsPattern()) && !Test(Trim(code), PyPattern())
                                && Test(Trim(code), JavaPattern()))
    ensures ext == "cpp" <==> (!Test(Trim(code), JsPattern()) && !Test(Trim(code), PyPattern())
                               && !Test(Trim(code), JavaPattern()) && Test(Trim(code), CppPattern()))
    ensures ext == "php" <==> NoEarlierMatch(Trim(code)) && Includes(Trim(code), "php")
    ensures ext == "txt" <==> NoEarlierMatch(Trim(code)) && !Includes(Trim(code), "php")
    ensures ext in {"js", "py", "java", "cpp", "php", "txt"}
  {
    PhpPatternMatchesAnyPhp(Trim(code));
    Detect(Trim(code), PhpPattern())
  }

  /** The detection with the PHP opening tag matched literally; "php" then
      means the code contains "<?php". */
  function DetectFileExtensionTag(code: string): (ext: string)
    ensures ext == "php" <==> NoEarlierMatch(Trim(code)) && Includes(Trim(code), "<?php")
    ensures ext == "txt" <==> NoEarlierMatch(Trim(code)) && !Includes(Trim(code), "<?php")
    ensures DetectFileExtension(code) != "php" ==> ext == DetectFileExtension(code)
    ensures ext != "php" && ext != "txt" ==> ext == DetectFileExtension(code)
    ensures ext == "php" ==> DetectFileExtension(code) == "php"
    ensures ext in {"js", "py", "java", "cpp", "php", "txt"}
  {
    PhpTagPatternMatchesTag(Trim(code));
    PhpPatternMatchesAnyPhp(Trim(code));
    TagContainsPhp(Trim(code));
    Detect(Trim(code), PhpTagPattern())
  }

  /** Wherever "<?php" occurs, "php" does. */
  lemma TagContainsPhp(s: string)
    ensures Includes(s, "<?php") ==> Includes(s, "php")
  {
    if Includes(s, "<?php") {
      var j :| OccursAt(s, "<?php", j);
      assert s[j + 2..j + 5] == s[j..j + 5][2..];
      assert OccursAt(s, "php", j + 2);
    }
  }

  /** Text in which "php" occurs only inside a word: detected as PHP as
      written, as plain text with the tag matched literally. */
  lemma PhpInsideWord()
    ensures DetectFileExtension("graphpaper") == "php"
    ensures DetectFileExtensionTag("graphpaper") == "txt"
  {
    var s := "graphpaper";
    GraphpaperTrimmed();
    GraphpaperNoEarlierMatch();
    NotIncluded(s, "<?php");
    NoTest(s, PhpTagPattern());
    assert OccursAt(s, "php", 3);
    PhpPatternMatchesAnyPhp(s);
  }

  lemma GraphpaperTrimmed()
    ensures Trim("graphpaper") == "graphpaper"
  {
    var s := "graphpaper";
    assert !IsSpace(s[0]) && !IsSpace(s[|s| - 1]);
    assert TrimStart(s) == s;
    assert TrimEnd(s) == s;
  }

  /** "graphpaper" matches none of the JavaScript, Python, Java and C++
      patterns. */
  lemma GraphpaperNoEarlierMatch()
    ensures !Test("graphpaper", JsPattern()) && !Test("graphpaper", PyPattern())
    ensures !Test("graphpaper", JavaPattern()) && !Test("graphpaper", CppPattern())
  {
    GraphpaperNotJs();
    GraphpaperNotPy();
    GraphpaperNotJava();
    GraphpaperNotCpp();
  }

  lemma GraphpaperNotJs()
    ensures !Test("graphpaper", JsPattern())
  {
    NotIncluded("graphpaper", "import");
    NotIncluded("graphpaper", "console.log");
    NotIncluded("graphpaper", "function");
    NotIncluded("graphpaper", "=>");
    NoTest("graphpaper", JsPattern());
  }

  lemma GraphpaperNotPy()
    ensures !Test("graphpaper", PyPattern())
  {
    NotIncluded("graphpaper", "def");
    NotIncluded("graphpaper", "print(");
    NotIncluded("graphpaper", "import");
    NoTest("graphpaper", PyPattern());
  }

  lemma GraphpaperNotJava()
    ensures !Test("graphpaper", JavaPattern())
  {
    NotIncluded("graphpaper", "public");
    NotIncluded("graphpaper", "System.out.println");
    NoTest("graphpaper", JavaPattern());
  }

  lemma GraphpaperNotCpp()
    ensures !Test("graphpaper", CppPattern())
  {
    NotIncluded("graphpaper", "#include");
    NotIncluded("graphpaper", "int");
    NoTest("graphpaper", CppPattern());
  }

  /** Strings that "graphpaper" does not contain: their first character is
      not in it, or is a 'p' followed by a character no 'p' there is. */
  lemma NotIncluded(s: string, t: string)
    requires |t| >= 2 && s == "graphpaper"
    requires t[0] !in s || (t[0] == 'p' && t[1] != 'h' && t[1] != 'a' && t[1] != 'e')
    ensures !Includes(s, t)
  {
    forall j | 0 <= j && j + |t| <= |s| ensures !OccursAt(s, t, j) {
      assert s[j..j + |t|][0] == s[j] && s[j..j + |t|][1] == s[j + 1];
    }
  }

  // ---------------------------------------------------------------------
  // Editing

  /** The Tab key: the code before the selection, two spaces, and the code
      after it, each end taken with `substring`'s clamping. */
  function TabInsert(code: string, start: int, end: int): (r: string)
    ensures 0 <= start <= end <= |code| ==>
      |r| == |code| - (end - start) + 2 && r[..start] == code[..start]
      && r[start..start + 2] == "  " && r[start + 2..] == code[end..]
  {
    Substring(code, 0, start) + "  " + Substring(code, end, |code|)
  }

  /** The line numbers 1 to k, one per piece of the code split at newlines. */
  function LineNumbers(code: string): (lines: seq<int>)
    ensures |lines| == CountChar(code, '\n') + 1
    ensures forall i :: 0 <= i < |lines| ==> lines[i] == i + 1
  {
    SplitCount(code, '\n');
    var k := |Split(code, '\n')|;
    seq(k, i requires 0 <= i < k => i + 1)
  }

  /** Submit is disabled while an analysis runs or when the code is only
      whitespace. */
  function SubmitDisabled(isAnalyzing: bool, code: string): (disabled: bool)
    ensures disabled <==> isAnalyzing || forall i :: 0 <= i < |code| ==> IsSpace(code[i])
  {
    isAnalyzing || Trim(code) == ""
  }

  const KEY_TAB := "Tab"

  /** The editor's code (held by its parent page), its line numbers and the
      textarea's selection. */
  class Editor {
    var code: string
    var lines: seq<int>
    var selectionStart: int
    var selectionEnd: int

    /** The line numbers are those of the code, and the selection lies
        within it. */
    predicate Valid()
      reads this
    {
      lines == LineNumbers(code) && 0 <= selectionStart <= selectionEnd <= |code|
    }

    constructor (initial: string)
      ensures Valid() && code == initial && selectionStart == selectionEnd == 0
    {
      code := initial;
      lines := LineNumbers(initial);
      selectionStart := 0;
      selectionEnd := 0;
    }

    /** Typing into the textarea: the new value, the caret at `caret`, and
        the line numbers recomputed by the effect. */
    method Change(value: string, caret: nat)
      requires caret <= |value|
      modifies this
      ensures Valid() && code == value && selectionStart == selectionEnd == caret
    {
      code := value;
      selectionStart, selectionEnd := caret, caret;
      lines := LineNumbers(code);
    }

    /** `handleKeyDown`: Tab replaces the selection by two spaces and puts
        the caret after them; other keys are left to the textarea. */
    method HandleKeyDown(key: string)
      requires Valid()
      modifies this
      ensures Valid()
      ensures key == KEY_TAB ==> (code == TabInsert(old(code), old(selectionStart), old(selectionEnd))
                && selectionStart == selectionEnd == old(selectionStart) + 2
                && code[selectionStart..] == old(code)[old(selectionEnd)..])
      ensures key != KEY_TAB ==> (code == old(code) && lines == old(lines)
                && selectionStart == old(selectionStart) && selectionEnd == old(selectionEnd))
    {
      if key == KEY_TAB {
        var start := selectionStart;
        var end := selectionEnd;
        var newCode := TabInsert(code, start, end);
        code := newCode;
        lines := LineNumbers(code);
        selectionStart := start + 2;
        selectionEnd := start + 2;
      }
    }
  }
}
