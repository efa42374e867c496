/**
 * The upload filter of the web front end: only packaged Tableau workbooks
 * are accepted for conversion.
 */
module Uploads {
  import opened Wrappers
  import opened Text

  /** The extensions an uploaded file may carry, lower-cased. */
  const AllowedExtensions: set<string> := {"twbx"}

  /** The suffix every accepted name ends with, up to letter case. */
  const TwbxSuffix: string := ".twbx"

  /**
   * `allowed_file`: the name has a dot, and what follows its last dot,
   * lower-cased, is an allowed extension.
   */
  predicate AllowedFile(filename: string)
  {
    '.' in filename && Lower(LastSegment(filename, '.')) in AllowedExtensions
  }

  /**
   * A name is accepted exactly when it ends with ".twbx" in any mix of
   * letter cases: "Sales.TWBX" and "a.b.twbx" pass; "twbx", "Sales.twb",
   * "Sales.twbx.zip" and "Sales.twbx " do not.
   */
  lemma AllowedFileMeaning(filename: string)
    ensures AllowedFile(filename) <==>
      |filename| >= |TwbxSuffix| && Lower(filename[|filename| - |TwbxSuffix|..]) == TwbxSuffix
  {
    var n := |filename|;
    if AllowedFile(filename) {
      var i := LastIndexWhere(filename, c => c == '.').value;
      assert LastSegment(filename, '.') == filename[i + 1..];
      assert |filename[i + 1..]| == 4;
      assert i == n - 5;
      var tail := filename[n - 5..];
      assert tail == [filename[i]] + filename[i + 1..];
      assert Lower(tail) == [LowerChar(filename[i])] + Lower(filename[i + 1..]);
    }
    if n >= 5 && Lower(filename[n - 5..]) == TwbxSuffix {
      var tail := filename[n - 5..];
      assert LowerChar(tail[0]) == '.';
      assert filename[n - 5] == '.';
      forall j | n - 5 < j < n
        ensures filename[j] != '.'
      {
        assert LowerChar(tail[j - (n - 5)]) == TwbxSuffix[j - (n - 5)];
      }
      var i := LastIndexWhere(filename, c => c == '.').value;
      assert i == n - 5;
      assert Lower(filename[i + 1..]) == Lower(tail)[1..];
    }
  }

  /** Case does not matter: a name and its lower-cased form are accepted alike. */
  lemma AllowedFileIgnoresCase(filename: string)
    ensures AllowedFile(filename) <==> AllowedFile(Lower(filename))
  {
    var n := |filename|;
    var low := Lower(filename);
    AllowedFileMeaning(filename);
    AllowedFileMeaning(low);
    if n >= 5 {
      var tail := filename[n - 5..];
      var lowTail := low[n - 5..];
      assert Lower(lowTail) == Lower(tail) by {
        forall j | 0 <= j < 5
          ensures Lower(lowTail)[j] == Lower(tail)[j]
        {
          assert lowTail[j] == LowerChar(tail[j]);
        }
      }
    }
  }

  /** A packaged workbook is accepted; an unpackaged one and an extensionless name are not. */
  lemma AllowedFileExamples()
    ensures AllowedFile("Sales.TWBX")
    ensures !AllowedFile("Sales.twb")
    ensures !AllowedFile("twbx")
  {
    AllowedFileMeaning("Sales.TWBX");
    AllowedFileMeaning("Sales.twb");
    assert Lower("Sales.twb"[4..]) != TwbxSuffix by {
      assert Lower("Sales.twb"[4..])[0] == LowerChar('s');
    }
  }
}
