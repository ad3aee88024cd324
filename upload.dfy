/** The upload filter: only files whose extension is `csv` are accepted. */
module Upload {

  const AllowedExtensions: set<string> := {"csv"}

  /** Index of the last '.' in `f`: where `f.rsplit('.', 1)` cuts. */
  function LastDot(f: string): (i: nat)
    requires '.' in f
    ensures i < |f| && f[i] == '.'
    ensures forall j :: i < j < |f| ==> f[j] != '.'
  {
    if f[|f| - 1] == '.' then |f| - 1 else LastDot(f[..|f| - 1])
  }

  /** `f.rsplit('.', 1)[1]`: the text after the last '.'. */
  function Extension(f: string): (e: string)
    requires '.' in f
    ensures '.' !in e && |e| < |f|
    ensures f == f[..|f| - |e| - 1] + "." + e
  {
    var i := LastDot(f);
    assert f == f[..i] + "." + f[i + 1..];
    f[i + 1..]
  }

  function ToLower(c: char): char
  {
    if 'A' <= c <= 'Z' then (c as int - 'A' as int + 'a' as int) as char else c
  }

  /** `s.lower()` on ASCII letters. */
  function Lower(s: string): (r: string)
    ensures |r| == |s|
    ensures forall i :: 0 <= i < |s| ==> r[i] == ToLower(s[i])
  {
    if s == [] then [] else [ToLower(s[0])] + Lower(s[1..])
  }

  /** `allowed_file(filename)` */
  predicate AllowedFile(filename: string)
  {
    '.' in filename && Lower(Extension(filename)) in AllowedExtensions
  }

  /** An accepted name ends in '.' followed by three characters that
      lower-case to "csv". */
  lemma AllowedFileEndsInCsv(f: string)
    requires AllowedFile(f)
    ensures |f| >= 4 && f[|f| - 4] == '.' && Lower(f[|f| - 3..]) == "csv"
  {
    var e := Extension(f);
    assert |Lower(e)| == 3;
    assert f[|f| - 4..] == "." + e by {
      assert f == f[..|f| - |e| - 1] + "." + e;
    }
  }

  /** A name ending in '.' followed by three characters that lower-case to
      "csv" is accepted: no '.' can follow that one. */
  lemma CsvEndingIsAllowed(f: string)
    requires |f| >= 4 && f[|f| - 4] == '.' && Lower(f[|f| - 3..]) == "csv"
    ensures AllowedFile(f)
  {
    assert f[|f| - 3..] == [f[|f| - 3], f[|f| - 2], f[|f| - 1]];
    forall j | |f| - 3 <= j < |f|
      ensures f[j] != '.'
    {
      assert ToLower(f[j]) == "csv"[j - (|f| - 3)];
    }
    assert '.' in f;
    assert LastDot(f) == |f| - 4;
  }

  /** A name is accepted exactly when it ends in '.' followed by three
      characters that lower-case to "csv". */
  lemma AllowedFileIff(f: string)
    ensures AllowedFile(f) <==> |f| >= 4 && f[|f| - 4] == '.' && Lower(f[|f| - 3..]) == "csv"
  {
    if AllowedFile(f) {
      AllowedFileEndsInCsv(f);
    }
    if |f| >= 4 && f[|f| - 4] == '.' && Lower(f[|f| - 3..]) == "csv" {
      CsvEndingIsAllowed(f);
    }
  }

  /** The extension is compared without regard to case. */
  lemma UpperCaseAccepted()
    ensures AllowedFile("a.CSV")
  {
    assert "a.CSV"[2..] == "CSV";
    assert Lower("CSV") == "csv";
    CsvEndingIsAllowed("a.CSV");
  }

  /** A name that is only the extension is accepted. */
  lemma BareExtensionAccepted()
    ensures AllowedFile(".csv")
  {
    assert ".csv"[1..] == "csv";
    assert Lower("csv") == "csv";
    CsvEndingIsAllowed(".csv");
  }

  /** Only the text after the last '.' counts. */
  lemma LastExtensionAccepted()
    ensures AllowedFile("x.2023.Csv")
  {
    assert "x.2023.Csv"[7..] == "Csv";
    assert Lower("Csv") == "csv";
    CsvEndingIsAllowed("x.2023.Csv");
  }

  lemma RejectedExamples()
    ensures !AllowedFile("csv") && !AllowedFile("a.csv.txt") && !AllowedFile("a.") && !AllowedFile("a.cs")
  {
    AllowedFileIff("csv");
    AllowedFileIff("a.csv.txt");
    assert "a.csv.txt"[5] == '.';
    AllowedFileIff("a.");
    AllowedFileIff("a.cs");
  }
}
