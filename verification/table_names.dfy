/**
 * The table-name normaliser that tests/test_db_builder.py pins down: a file's
 * base name without its extension, spaces and hyphens turned into
 * underscores, every other character that is not a letter, digit or
 * underscore dropped, and letters lower-cased. Only ASCII letters and digits
 * count as alphanumeric here.
 */
module TableNames {
  import opened Sequences

  predicate IsAsciiAlnum(c: char)
  {
    'a' <= c <= 'z' || 'A' <= c <= 'Z' || '0' <= c <= '9'
  }

  /** The characters a table name may hold. */
  predicate IsNameChar(c: char)
  {
    'a' <= c <= 'z' || '0' <= c <= '9' || c == '_'
  }

  function Lower(c: char): char
  {
    if 'A' <= c <= 'Z' then (c as int - 'A' as int + 'a' as int) as char else c
  }

  /** Index of the last `.` in `s`, or -1 when there is none. */
  function LastDot(s: string): (r: int)
    ensures -1 <= r < |s|
  {
    if s == [] then -1
    else if s[|s| - 1] == '.' then |s| - 1
    else LastDot(s[..|s| - 1])
  }

  /** LastDot finds a dot, and no dot follows it. */
  lemma {:induction false} LastDotIsLast(s: string)
    ensures LastDot(s) >= 0 ==> s[LastDot(s)] == '.'
    ensures forall j :: LastDot(s) < j < |s| ==> s[j] != '.'
  {
    if s != [] && s[|s| - 1] != '.' {
      LastDotIsLast(s[..|s| - 1]);
    }
  }

  /**
   * `Path(name).stem`: the name without its last `.suffix`; a leading dot
   * (a hidden file) or a trailing dot is not an extension.
   */
  function Stem(name: string): string
  {
    var i := LastDot(name);
    if 0 < i < |name| - 1 then name[..i] else name
  }

  /** What one character of the stem becomes. */
  function CharImage(c: char): string
  {
    if c == ' ' || c == '-' || c == '_' then "_"
    else if IsAsciiAlnum(c) then [Lower(c)]
    else ""
  }

  /** Each character replaced by its image, in order. */
  function Normalise(s: string): string
  {
    if s == [] then [] else CharImage(s[0]) + Normalise(s[1..])
  }

  /** Normalising never lengthens a name and leaves only name characters. */
  lemma {:induction false} NormaliseCharset(s: string)
    ensures |Normalise(s)| <= |s|
    ensures forall i :: 0 <= i < |Normalise(s)| ==> IsNameChar(Normalise(s)[i])
  {
    if s != [] {
      NormaliseCharset(s[1..]);
      var head := CharImage(s[0]);
      assert forall i :: 0 <= i < |head| ==> IsNameChar(head[i]);
      assert Normalise(s) == head + Normalise(s[1..]);
    }
  }

  /**
   * `_generate_table_name`: the identifier a file is loaded under. It holds
   * only lower-case letters, digits and underscores, and so no dot.
   */
  function GenerateTableName(fileName: string): (r: string)
    ensures |r| <= |fileName|
    ensures forall i :: 0 <= i < |r| ==> IsNameChar(r[i])
    ensures '.' !in r
  {
    NormaliseCharset(Stem(fileName));
    Normalise(Stem(fileName))
  }

  /** Normalising works character by character, so it distributes over concatenation. */
  lemma {:induction false} NormaliseConcat(a: string, b: string)
    ensures Normalise(a + b) == Normalise(a) + Normalise(b)
  {
    if a == [] {
      assert a + b == b;
    } else {
      var t := a[1..];
      NormaliseConcat(t, b);
      assert (a + b)[0] == a[0];
      assert (a + b)[1..] == t + b;
      assert Normalise(a + b) == CharImage(a[0]) + (Normalise(t) + Normalise(b));
      AppendAssoc(CharImage(a[0]), Normalise(t), Normalise(b));
    }
  }

  /** A space or a hyphen anywhere becomes one underscore in its place. */
  lemma SpaceOrHyphenBecomesUnderscore(a: string, c: char, b: string)
    requires c == ' ' || c == '-'
    ensures Normalise(a + [c] + b) == Normalise(a) + "_" + Normalise(b)
  {
    NormaliseConcat(a + [c], b);
    NormaliseConcat(a, [c]);
  }

  /** A character that is neither alphanumeric nor a separator disappears. */
  lemma SpecialCharRemoved(a: string, c: char, b: string)
    requires !IsAsciiAlnum(c) && c != ' ' && c != '-' && c != '_'
    ensures Normalise(a + [c] + b) == Normalise(a) + Normalise(b)
  {
    NormaliseConcat(a + [c], b);
    NormaliseConcat(a, [c]);
  }

  /** A name already made of name characters is its own normal form. */
  lemma {:induction false} NormaliseNameChars(s: string)
    requires forall i :: 0 <= i < |s| ==> IsNameChar(s[i])
    ensures Normalise(s) == s
  {
    if s != [] {
      NormaliseNameChars(s[1..]);
      assert s == [s[0]] + s[1..];
    }
  }

  /** A name made of ASCII letters and digits only is lower-cased, letter for letter. */
  lemma {:induction false} NormaliseAlnum(s: string)
    requires forall i :: 0 <= i < |s| ==> IsAsciiAlnum(s[i])
    ensures |Normalise(s)| == |s|
    ensures forall i :: 0 <= i < |s| ==> Normalise(s)[i] == Lower(s[i])
  {
    if s != [] {
      NormaliseAlnum(s[1..]);
      assert Normalise(s) == [Lower(s[0])] + Normalise(s[1..]);
    }
  }

  /** A name without a dot has no extension to drop. */
  lemma StemWithoutDot(name: string)
    requires '.' !in name
    ensures Stem(name) == name
  {
    LastDotIsLast(name);
    assert forall j :: 0 <= j < |name| ==> name[j] != '.';
  }

  /** The last extension is dropped, and only it: `base.ext` gives `base`. */
  lemma StemDropsExtension(base: string, ext: string)
    requires base != [] && ext != [] && '.' !in ext
    ensures Stem(base + "." + ext) == base
  {
    var name := base + "." + ext;
    LastDotIsLast(name);
    assert name[|base|] == '.';
    assert forall j :: |base| < j < |name| ==> name[j] == ext[j - |base| - 1];
    assert forall k :: 0 <= k < |ext| ==> ext[k] != '.';
    assert LastDot(name) == |base|;
    assert name[..|base|] == base;
  }

  /** The extension is dropped before normalising: `base.ext` is named after `base` alone. */
  lemma ExtensionExcluded(fileName: string, base: string, ext: string)
    requires fileName == base + "." + ext
    requires base != [] && ext != [] && '.' !in ext
    ensures GenerateTableName(fileName) == Normalise(base)
  {
    StemDropsExtension(base, ext);
  }

  /** Two runs of name characters around a space or hyphen are joined by one underscore. */
  lemma JoinedByUnderscore(s: string, a: string, c: char, b: string)
    requires s == a + [c] + b && (c == ' ' || c == '-')
    requires forall i :: 0 <= i < |a| ==> IsNameChar(a[i])
    requires forall i :: 0 <= i < |b| ==> IsNameChar(b[i])
    ensures Normalise(s) == a + "_" + b
  {
    SpaceOrHyphenBecomesUnderscore(a, c, b);
    NormaliseNameChars(a);
    NormaliseNameChars(b);
  }

  /** Deriving a name from a derived name changes nothing. */
  lemma GenerateTableNameIdempotent(fileName: string)
    ensures GenerateTableName(GenerateTableName(fileName)) == GenerateTableName(fileName)
  {
    var r := GenerateTableName(fileName);
    StemWithoutDot(r);
    NormaliseNameChars(r);
  }

  // The four cases of tests/test_db_builder.py, each stated for the file name
  // the test passes in: first the extension is dropped, then the stem is
  // normalised (each stem in a lemma of its own, to keep each proof small).

  lemma SpacedStem()
    ensures Normalise("my data") == "my_data"
  {
    assert "my data" == "my" + " " + "data";
    assert "my_data" == "my" + "_" + "data";
    JoinedByUnderscore("my data", "my", ' ', "data");
  }

  lemma SpacesBecomeUnderscores(fileName: string)
    requires fileName == "my data.csv"
    ensures GenerateTableName(fileName) == "my_data"
  {
    assert fileName == "my data" + "." + "csv";
    ExtensionExcluded(fileName, "my data", "csv");
    SpacedStem();
  }

  lemma HyphenatedStem()
    ensures Normalise("data-2024") == "data_2024"
  {
    assert "data-2024" == "data" + "-" + "2024";
    assert "data_2024" == "data" + "_" + "2024";
    JoinedByUnderscore("data-2024", "data", '-', "2024");
  }

  lemma HyphensBecomeUnderscores(fileName: string)
    requires fileName == "data-2024.parquet"
    ensures GenerateTableName(fileName) == "data_2024"
  {
    assert fileName == "data-2024" + "." + "parquet";
    ExtensionExcluded(fileName, "data-2024", "parquet");
    HyphenatedStem();
  }

  lemma MixedCaseStem()
    ensures Normalise("MyTable") == "mytable"
  {
    NormaliseAlnum("MyTable");
  }

  lemma LowercasedWithoutExtension(fileName: string)
    requires fileName == "MyTable.CSV"
    ensures GenerateTableName(fileName) == "mytable"
  {
    assert fileName == "MyTable" + "." + "CSV";
    ExtensionExcluded(fileName, "MyTable", "CSV");
    MixedCaseStem();
  }

  lemma SpecialCharStem()
    ensures Normalise("data@#$%") == "data"
  {
    assert "data@#$%" == "data" + "@#$%";
    NormaliseConcat("data", "@#$%");
    NormaliseNameChars("data");
    assert Normalise("@#$%") == "";
  }

  lemma SpecialCharactersRemoved(fileName: string)
    requires fileName == "data@#$%.json"
    ensures GenerateTableName(fileName) == "data"
  {
    assert fileName == "data@#$%" + "." + "json";
    ExtensionExcluded(fileName, "data@#$%", "json");
    SpecialCharStem();
  }
}
