/*
 * Finding the imports of a Java source file, as the import finder's tests state it: every
 * statement `import <name>;` yields one Java import of that name, whatever whitespace (spaces,
 * newlines) surrounds the keyword, the name and the semicolon. Names are made of letters, digits,
 * underscores and dots.
 */
module JavaImports {
  import opened Common

  datatype ImportType = Java

  datatype Import = Import(scannerId: string, importType: ImportType, name: string)

  const ImportKeyword := "import"

  predicate IsNameChar(c: char) {
    ('a' <= c <= 'z') || ('A' <= c <= 'Z') || ('0' <= c <= '9') || c == '_' || c == '.'
  }

  /** An imported name: a non-empty run of name characters. */
  predicate IsName(s: string) {
    s != [] && forall i :: 0 <= i < |s| ==> IsNameChar(s[i])
  }

  /** The text without its leading whitespace. */
  function TrimStart(s: string): (r: string)
    ensures |r| <= |s| && r == s[|s| - |r|..] && IsBlank(s[..|s| - |r|])
    ensures r == [] || !IsWhitespace(r[0])
  {
    if s != [] && IsWhitespace(s[0]) then TrimStart(s[1..]) else s
  }

  /** The text without its trailing whitespace. */
  function TrimEnd(s: string): (r: string)
    ensures |r| <= |s| && r == s[..|r|] && IsBlank(s[|r|..])
    ensures r == [] || !IsWhitespace(r[|r| - 1])
  {
    if s != [] && IsWhitespace(s[|s| - 1]) then TrimEnd(s[..|s| - 1]) else s
  }

  /** Leading whitespace is all that TrimStart removes. */
  lemma {:induction false} TrimStartBlank(blank: string, s: string)
    requires IsBlank(blank) && (s == [] || !IsWhitespace(s[0]))
    ensures TrimStart(blank + s) == s
  {
    if blank != [] {
      assert (blank + s)[1..] == blank[1..] + s;
      TrimStartBlank(blank[1..], s);
    }
  }

  /** Trailing whitespace is all that TrimEnd removes. */
  lemma {:induction false} TrimEndBlank(s: string, blank: string)
    requires IsBlank(blank) && (s == [] || !IsWhitespace(s[|s| - 1]))
    ensures TrimEnd(s + blank) == s
  {
    if blank != [] {
      var shorter := blank[..|blank| - 1];
      assert (s + blank)[..|s + blank| - 1] == s + shorter;
      TrimEndBlank(s, shorter);
    } else {
      assert s + blank == s;
    }
  }

  /** One statement (the text before its semicolon): the name it imports, if it is an import. */
  function ParseStatement(statement: string): (r: Option<string>)
    ensures r.Some? ==> IsName(r.value)
  {
    var t := TrimStart(statement);
    if |t| > |ImportKeyword| && t[..|ImportKeyword|] == ImportKeyword && IsWhitespace(t[|ImportKeyword|]) then
      var name := TrimEnd(TrimStart(t[|ImportKeyword|..]));
      if IsName(name) then Some(name) else None
    else
      None
  }

  predicate IsSemicolon(c: char) {
    c == ';'
  }

  /** The statements of a text: the pieces before each semicolon; text after the last one ends no
      statement. */
  function Statements(text: string): (r: seq<string>)
    ensures forall i, j :: 0 <= i < |r| && 0 <= j < |r[i]| ==> r[i][j] != ';'
    decreases |text|
  {
    match FindFirst(text, IsSemicolon)
    case None => []
    case Some(i) => [text[..i]] + Statements(text[i + 1..])
  }

  /** A statement without semicolons followed by one is split off as it stands. */
  lemma StatementsSplit(statement: string, rest: string)
    requires forall j :: 0 <= j < |statement| ==> statement[j] != ';'
    ensures Statements(statement + ";" + rest) == [statement] + Statements(rest)
  {
    var text := statement + ";" + rest;
    var k := FindFirst(text, IsSemicolon);
    assert IsSemicolon(text[|statement|]);
    assert forall j :: 0 <= j < |statement| ==> !IsSemicolon(text[j]);
    assert k == Some(|statement|);
    assert text[..|statement|] == statement;
    assert text[|statement| + 1..] == rest;
  }

  /** The imports named by a list of statements, in order, each statement read by `parse`. */
  function ImportsOf(scannerId: string, parse: string -> Option<string>, statements: seq<string>): (r: seq<Import>)
    requires forall statement :: parse(statement).Some? ==> IsName(parse(statement).value)
    ensures |r| <= |statements|
    ensures forall i :: 0 <= i < |r| ==> r[i].scannerId == scannerId && r[i].importType == Java && IsName(r[i].name)
  {
    if statements == [] then []
    else
      (match parse(statements[0])
       case Some(name) => [Import(scannerId, Java, name)]
       case None => [])
      + ImportsOf(scannerId, parse, statements[1..])
  }

  lemma ImportsOfFirst(scannerId: string, parse: string -> Option<string>, statement: string, rest: seq<string>, name: string)
    requires forall statement :: parse(statement).Some? ==> IsName(parse(statement).value)
    requires parse(statement) == Some(name)
    ensures ImportsOf(scannerId, parse, [statement] + rest) == [Import(scannerId, Java, name)] + ImportsOf(scannerId, parse, rest)
  {
    assert ([statement] + rest)[1..] == rest;
  }

  /** JavaImportFinder.findImports */
  function FindImports(scannerId: string, text: string): (r: seq<Import>)
    ensures forall i :: 0 <= i < |r| ==> r[i].scannerId == scannerId && r[i].importType == Java && IsName(r[i].name)
  {
    ImportsOf(scannerId, ParseStatement, Statements(text))
  }

  // ---------------------------------------------------------------------------------------------
  // Import statements written out, and found again

  /** An import statement as written: whitespace before the keyword, between the keyword and the name
      (at least one character), and between the name and the semicolon. */
  datatype ImportStatement = ImportStatement(before: string, gap: string, name: string, after: string)

  predicate WellFormed(s: ImportStatement) {
    IsBlank(s.before) && IsBlank(s.gap) && s.gap != [] && IsName(s.name) && IsBlank(s.after)
  }

  /** The statement's text without its semicolon. */
  function StatementText(s: ImportStatement): string {
    s.before + ImportKeyword + s.gap + s.name + s.after
  }

  /** The statements written one after another, each ended by its semicolon. */
  function Render(statements: seq<ImportStatement>): string {
    if statements == [] then [] else StatementText(statements[0]) + ";" + Render(statements[1..])
  }

  function NamesImported(scannerId: string, statements: seq<ImportStatement>): (r: seq<Import>)
    ensures |r| == |statements| && forall i :: 0 <= i < |r| ==> r[i] == Import(scannerId, Java, statements[i].name)
  {
    seq(|statements|, i requires 0 <= i < |statements| => Import(scannerId, Java, statements[i].name))
  }

  /** The keyword followed by whitespace passes the keyword test of ParseStatement. */
  lemma KeywordThenWhitespace(rest: string)
    requires rest != [] && IsWhitespace(rest[0])
    ensures var body := ImportKeyword + rest;
      |body| > |ImportKeyword| && body[..|ImportKeyword|] == ImportKeyword
      && IsWhitespace(body[|ImportKeyword|]) && body[|ImportKeyword|..] == rest
  {
  }

  /** Trimming the whitespace around a name leaves the name. */
  lemma NameTrimmed(gap: string, name: string, after: string)
    requires IsBlank(gap) && IsName(name) && IsBlank(after)
    ensures TrimEnd(TrimStart(gap + (name + after))) == name
  {
    assert !IsWhitespace(name[0]) by {
      assert IsNameChar(name[0]);
    }
    TrimStartBlank(gap, name + after);
    assert !IsWhitespace(name[|name| - 1]) by {
      assert IsNameChar(name[|name| - 1]);
    }
    TrimEndBlank(name, after);
  }

  /** A well-formed import statement parses to its name, whatever whitespace it holds. */
  lemma ParseWellFormed(s: ImportStatement)
    requires WellFormed(s)
    ensures ParseStatement(StatementText(s)) == Some(s.name)
  {
    var rest := s.gap + (s.name + s.after);
    var body := ImportKeyword + rest;
    assert StatementText(s) == s.before + body;
    assert body[0] == 'i';
    TrimStartBlank(s.before, body);
    KeywordThenWhitespace(rest);
    NameTrimmed(s.gap, s.name, s.after);
  }

  lemma NoSemicolonInStatement(s: ImportStatement)
    requires WellFormed(s)
    ensures forall j :: 0 <= j < |StatementText(s)| ==> StatementText(s)[j] != ';'
  {
    var t := StatementText(s);
    forall j | 0 <= j < |t| ensures t[j] != ';' {
      if j < |s.before| {
        assert t[j] == s.before[j];
      } else if j < |s.before| + |ImportKeyword| {
        assert t[j] == ImportKeyword[j - |s.before|];
      } else if j < |s.before| + |ImportKeyword| + |s.gap| {
        assert t[j] == s.gap[j - |s.before| - |ImportKeyword|];
      } else if j < |s.before| + |ImportKeyword| + |s.gap| + |s.name| {
        assert t[j] == s.name[j - |s.before| - |ImportKeyword| - |s.gap|];
      } else {
        assert t[j] == s.after[j - |s.before| - |ImportKeyword| - |s.gap| - |s.name|];
      }
    }
  }

  /** A well-formed import statement at the head of a text yields its import ahead of the rest. */
  lemma FindAfterStatement(scannerId: string, first: ImportStatement, rest: string)
    requires WellFormed(first)
    ensures FindImports(scannerId, StatementText(first) + ";" + rest)
      == [Import(scannerId, Java, first.name)] + FindImports(scannerId, rest)
  {
    var text := StatementText(first);
    NoSemicolonInStatement(first);
    StatementsSplit(text, rest);
    ParseWellFormed(first);
    ImportsOfFirst(scannerId, ParseStatement, text, Statements(rest), first.name);
  }

  lemma NamesImportedFirst(scannerId: string, statements: seq<ImportStatement>)
    requires statements != []
    ensures NamesImported(scannerId, statements)
      == [Import(scannerId, Java, statements[0].name)] + NamesImported(scannerId, statements[1..])
  {
    var r := [Import(scannerId, Java, statements[0].name)] + NamesImported(scannerId, statements[1..]);
    assert forall i :: 1 <= i < |r| ==> r[i] == NamesImported(scannerId, statements[1..])[i - 1];
  }

  /** Writing import statements out and finding the imports again gives back their names, in
      order, whatever follows the last semicolon (as long as it holds none). */
  lemma {:induction false} FindRendered(scannerId: string, statements: seq<ImportStatement>, tail: string)
    requires forall i :: 0 <= i < |statements| ==> WellFormed(statements[i])
    requires forall j :: 0 <= j < |tail| ==> tail[j] != ';'
    ensures FindImports(scannerId, Render(statements) + tail) == NamesImported(scannerId, statements)
  {
    if statements == [] {
      assert Render(statements) + tail == tail;
      assert FindFirst(tail, IsSemicolon).None?;
    } else {
      var first := statements[0];
      var rest := Render(statements[1..]) + tail;
      assert Render(statements) + tail == StatementText(first) + ";" + rest by {
        assert Render(statements) == StatementText(first) + ";" + Render(statements[1..]);
      }
      assert WellFormed(first);
      FindAfterStatement(scannerId, first, rest);
      FindRendered(scannerId, statements[1..], tail);
      NamesImportedFirst(scannerId, statements);
    }
  }

  /** A text holding one well-formed import statement yields exactly its import. */
  lemma FindSingle(scannerId: string, s: ImportStatement, tail: string)
    requires WellFormed(s)
    requires forall j :: 0 <= j < |tail| ==> tail[j] != ';'
    ensures FindImports(scannerId, StatementText(s) + ";" + tail) == [Import(scannerId, Java, s.name)]
  {
    FindAfterStatement(scannerId, s, tail);
    assert FindFirst(tail, IsSemicolon).None?;
  }

  // ---------------------------------------------------------------------------------------------
  // The cases the finder's tests state

  const TestScannerName := "test_scanner"

  /** `import test.Example;` */
  lemma FindsImport()
    ensures FindImports(TestScannerName, "import test.Example;") == [Import(TestScannerName, Java, "test.Example")]
  {
    var s := ImportStatement("", " ", "test.Example", "");
    FindsImportWritten(s);
    FindSingle(TestScannerName, s, "");
  }

  /** The statement of FindsImport, written out. */
  lemma FindsImportWritten(s: ImportStatement)
    requires s == ImportStatement("", " ", "test.Example", "")
    ensures WellFormed(s) && StatementText(s) + ";" + "" == "import test.Example;"
  {
    assert WellFormed(s) by {
      assert IsName(s.name);
    }
    assert StatementText(s) + ";" + "" == "import test.Example;" by {
      assert StatementText(s) == s.before + ImportKeyword + s.gap + s.name + s.after;
    }
  }

  /** `import test.Example_Example;`: underscores belong to the name. */
  lemma FindsImportWithUnderscore()
    ensures FindImports(TestScannerName, "import test.Example_Example;") == [Import(TestScannerName, Java, "test.Example_Example")]
  {
    var s := ImportStatement("", " ", "test.Example_Example", "");
    FindsImportWithUnderscoreWritten(s);
    FindSingle(TestScannerName, s, "");
  }

  /** The statement of FindsImportWithUnderscore, written out. */
  lemma FindsImportWithUnderscoreWritten(s: ImportStatement)
    requires s == ImportStatement("", " ", "test.Example_Example", "")
    ensures WellFormed(s) && StatementText(s) + ";" + "" == "import test.Example_Example;"
  {
    assert WellFormed(s) by {
      assert IsName(s.name);
    }
    assert StatementText(s) + ";" + "" == "import test.Example_Example;" by {
      assert StatementText(s) == s.before + ImportKeyword + s.gap + s.name + s.after;
    }
  }

  /** The statement between newlines. */
  lemma FindsImportBetweenNewlines()
    ensures FindImports(TestScannerName, "\nimport test.Example;\n") == [Import(TestScannerName, Java, "test.Example")]
  {
    var s := ImportStatement("\n", " ", "test.Example", "");
    FindsImportBetweenNewlinesWritten(s);
    FindSingle(TestScannerName, s, "\n");
  }

  /** The statement of FindsImportBetweenNewlines, written out. */
  lemma FindsImportBetweenNewlinesWritten(s: ImportStatement)
    requires s == ImportStatement("\n", " ", "test.Example", "")
    ensures WellFormed(s) && StatementText(s) + ";" + "\n" == "\nimport test.Example;\n"
  {
    assert WellFormed(s) by {
      assert IsName(s.name);
    }
    assert StatementText(s) + ";" + "\n" == "\nimport test.Example;\n" by {
      assert StatementText(s) == s.before + ImportKeyword + s.gap + s.name + s.after;
    }
  }

  /** Spaces around the keyword, the name and the semicolon are no part of the name. */
  lemma FindsImportAmidWhitespace()
    ensures FindImports(TestScannerName, "  import  test.Example  ;  ") == [Import(TestScannerName, Java, "test.Example")]
  {
    var s := ImportStatement("  ", "  ", "test.Example", "  ");
    FindsImportAmidWhitespaceWritten(s);
    FindSingle(TestScannerName, s, "  ");
  }

  /** The statement of FindsImportAmidWhitespace, written out. */
  lemma FindsImportAmidWhitespaceWritten(s: ImportStatement)
    requires s == ImportStatement("  ", "  ", "test.Example", "  ")
    ensures WellFormed(s) && StatementText(s) + ";" + "  " == "  import  test.Example  ;  "
  {
    assert WellFormed(s) by {
      assert IsName(s.name);
    }
    assert StatementText(s) + ";" + "  " == "  import  test.Example  ;  " by {
      assert StatementText(s) == s.before + ImportKeyword + s.gap + s.name + s.after;
    }
  }
}
