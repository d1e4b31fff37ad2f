/**
 * The CSV export address of the spreadsheet: the share link with its
 * `/edit?usp=sharing` suffix replaced by `/export?format=csv` (Python's
 * `str.replace`, which replaces every non-overlapping occurrence, left to right).
 */
module ExportUrl {

  const EditSuffix := "/edit?usp=sharing"
  const ExportSuffix := "/export?format=csv"

  /** The spreadsheet the application loads: its document id, its address, and its share link. */
  const SheetId := "1U2fa6zRPQyrj75ayU4qcnlYna0iVDFYmn3BAyFGEu6k"
  const SheetBase := "https://docs.google.com/spreadsheets/d/" + SheetId
  const SheetUrl := SheetBase + EditSuffix

  /** `pat` occurs in `s` starting at index `i`. */
  predicate OccursAt(s: string, pat: string, i: int) {
    0 <= i && i + |pat| <= |s| && s[i..i + |pat|] == pat
  }

  /** `s.replace(pat, rep)` for a non-empty `pat`: scan left to right, replacing each match and skipping past it. */
  function ReplaceAll(s: string, pat: string, rep: string): (r: string)
    requires pat != ""
    ensures pat == rep ==> r == s
    decreases |s|
  {
    if |s| < |pat| then s
    else if s[..|pat|] == pat then rep + ReplaceAll(s[|pat|..], pat, rep)
    else [s[0]] + ReplaceAll(s[1..], pat, rep)
  }

  /** `sheet_url.replace('/edit?usp=sharing', '/export?format=csv')`. */
  function CsvUrl(url: string): string {
    ReplaceAll(url, EditSuffix, ExportSuffix)
  }

  /** A string in which the pattern does not occur is left unchanged. */
  lemma {:induction false} ReplaceWithoutOccurrence(s: string, pat: string, rep: string)
    requires pat != ""
    requires forall i :: !OccursAt(s, pat, i)
    ensures ReplaceAll(s, pat, rep) == s
    decreases |s|
  {
    if |s| >= |pat| {
      assert !OccursAt(s, pat, 0);
      forall i ensures !OccursAt(s[1..], pat, i) {
        if OccursAt(s[1..], pat, i) {
          assert s[1..][i..i + |pat|] == s[i + 1..i + 1 + |pat|];
          assert OccursAt(s, pat, i + 1);
        }
      }
      ReplaceWithoutOccurrence(s[1..], pat, rep);
      assert [s[0]] + s[1..] == s;
    }
  }

  /**
   * When the pattern's first character appears nowhere else in it and the pattern
   * does not occur in `base`, the pattern appended to `base` is the only
   * replacement made.
   */
  lemma {:induction false} ReplaceTrailingOccurrence(base: string, pat: string, rep: string)
    requires pat != "" && pat[0] !in pat[1..]
    requires forall i :: !OccursAt(base, pat, i)
    ensures ReplaceAll(base + pat, pat, rep) == base + rep
    decreases |base|
  {
    var s := base + pat;
    if base == [] {
      assert s[..|pat|] == pat && s[|pat|..] == [];
      assert ReplaceAll([], pat, rep) == [];
    } else {
      if |pat| <= |base| {
        assert !OccursAt(base, pat, 0);
        assert s[..|pat|] == base[..|pat|];
      } else {
        // the appended pattern's first character would lie inside a match at 0
        assert s[|base|] == pat[0];
        assert pat[1..][|base| - 1] == pat[|base|];
        assert s[..|pat|][|base|] != pat[|base|];
      }
      forall i ensures !OccursAt(base[1..], pat, i) {
        if OccursAt(base[1..], pat, i) {
          assert base[1..][i..i + |pat|] == base[i + 1..i + 1 + |pat|];
          assert OccursAt(base, pat, i + 1);
        }
      }
      ReplaceTrailingOccurrence(base[1..], pat, rep);
      assert s[1..] == base[1..] + pat;
      assert [base[0]] + (base[1..] + rep) == base + rep;
    }
  }

  /** A share link ending in the edit suffix, with no other occurrence of it, becomes its export link. */
  lemma CsvUrlOfShareLink(base: string)
    requires forall i :: !OccursAt(base, EditSuffix, i)
    ensures CsvUrl(base + EditSuffix) == base + ExportSuffix
  {
    assert EditSuffix[0] !in EditSuffix[1..];
    ReplaceTrailingOccurrence(base, EditSuffix, ExportSuffix);
  }

  /** The application's own share link becomes `https://docs.google.com/spreadsheets/d/<id>/export?format=csv`. */
  lemma SheetCsvUrl()
    ensures CsvUrl(SheetUrl) == SheetBase + ExportSuffix
  {
    assert '?' !in "https://docs.google.com/spreadsheets/d/";
    assert '?' !in SheetId;
    forall i ensures !OccursAt(SheetBase, EditSuffix, i) {
      if 0 <= i && i + |EditSuffix| <= |SheetBase| {
        assert SheetBase[i + 5] in SheetBase;
        assert SheetBase[i..i + |EditSuffix|][5] == SheetBase[i + 5] != EditSuffix[5];
      }
    }
    CsvUrlOfShareLink(SheetBase);
  }
}
