/**
 * Source links: the test analyse.py applies to a link before trusting it,
 * and the Google search link it puts in place of one it does not trust.
 */
module Links {
  import opened PyStr
  import opened JsonValues

  const SearchBase := "https://www.google.com/search?q="

  /** `s.startswith(('http://', 'https://'))`. */
  predicate HasWebScheme(s: string) {
    StartsWith(s, "http://") || StartsWith(s, "https://")
  }

  /** The extractor's test (analyse.py:55 and 70): the link, converted with
      `str`, lacks an `http://`/`https://` prefix, is all digits, or is
      shorter than 5 characters. */
  predicate NeedsRepair(link: Json) {
    var s := Str(link);
    !HasWebScheme(s) || IsDigitString(s) || |s| < 5
  }

  /** `"https://www.google.com/search?q=" + text.strip().replace(' ', '+')`. */
  function SearchUrl(text: string): (r: string)
    ensures StartsWith(r, SearchBase)
    ensures |r| <= |SearchBase| + |text|
    ensures ' ' !in r[|SearchBase|..]
  {
    var query := ReplaceChar(Strip(text), ' ', '+');
    assert (SearchBase + query)[|SearchBase|..] == query;
    SearchBase + query
  }

  /** The link the extractor synthesizes (analyse.py:57-58): the title, a
      space, and at most the first 50 characters of the user's text. */
  function ExtractorSearchLink(title: string, userText: string): (r: string)
    ensures StartsWith(r, SearchBase) && ' ' !in r[|SearchBase|..]
    ensures |r| <= |SearchBase| + |title| + 51
  {
    SearchUrl(title + " " + Take(userText, 50))
  }

  /** Only the first 50 characters of the user's text reach the link. */
  lemma ExtractorSearchLinkUsesFirst50(title: string, userText: string, other: string)
    requires Take(userText, 50) == Take(other, 50)
    ensures ExtractorSearchLink(title, userText) == ExtractorSearchLink(title, other)
  {
  }

  /** A synthesized search link passes the extractor's test. */
  lemma SearchUrlNeedsNoRepair(text: string)
    ensures !NeedsRepair(JString(SearchUrl(text)))
  {
    var s := SearchUrl(text);
    assert s[..|SearchBase|] == SearchBase;
    assert s[..8] == SearchBase[..8] == "https://";
    assert s[0] == 'h';
  }

  /** The extractor's three-part test comes down to the prefix test alone,
      applied to strings: every value that is not a string is repaired
      (its text never starts with `h`), and a string with a web prefix is
      at least 7 characters long and starts with a letter. */
  lemma NeedsRepairIffNoWebString(link: Json)
    ensures NeedsRepair(link) <==> !(link.JString? && HasWebScheme(link.s))
  {
    if !link.JString? {
      NonStringTextStart(link);
      var s := Str(link);
      assert !StartsWith(s, "http://") by {
        if |s| >= 7 { assert s[..7][0] == s[0]; }
      }
      assert !StartsWith(s, "https://") by {
        if |s| >= 8 { assert s[..8][0] == s[0]; }
      }
    } else if HasWebScheme(link.s) {
      var s := link.s;
      assert s[0] == 'h' by {
        if StartsWith(s, "http://") { assert s[..7][0] == s[0]; }
        else { assert s[..8][0] == s[0]; }
      }
      assert !IsDigit(s[0]);
    }
  }
}
