# Verdict extraction and formatting of the fake-news analyser, in Dafny

The analyser sends a user's claim to a generative-AI service and gets back
free-form text. The service is asked for a JSON verdict: `verdict`,
`confidence`, `reason` and a `sources` object that maps titles to links.
This project models the two functions of `analyse.py` that turn that text
into the chat reply:

- `extract_json_from_response` (module `Extractor`). It decodes the whole
  reply. Only when that raises a decode error does it decode the text from
  the first `{` to the last `}`. If that fails too, or there is no such
  pair, the result is `None`.
  A decoded value that is a dict with a `sources` dict then has its links
  repaired in place. Any link whose text lacks an `http://`/`https://`
  prefix, is all digits, or is shorter than 5 characters is replaced by a
  Google search link. That link is built from the title and the first 50
  characters of the user's text.
- `json_to_formatted_text` (module `Formatter`). It renders the verdict,
  confidence and reason lines, with defaults for missing fields. It then
  adds a `Sources:` section with one `- [title](link)` line per source. That
  section has its own link check and builds its own search link.

Supporting modules:

- `PyStr`: the Python string built-ins these functions use: `strip`,
  one-character `replace`, `startswith`, `isdigit`, `find`, `rfind`,
  slicing, and `str` of an integer.
- `JsonValues`: decoded JSON values, dict lookup, truthiness, and `str(x)`.
- `Links`: the extractor's link test and the search-link builder.
- `Wrappers`: `Option` and `Result`.

The JSON decoder `json.loads` is not modelled. `Extractor.Extract` takes it
as a parameter `parse: string -> Decoded`. A `Decoded` is the decoded value,
a `JSONDecodeError`, or another exception such as `RecursionError` on deep
nesting. The first decode catches only `JSONDecodeError`, so another
exception escapes the function. In the fallback, the bare `except` turns
every failure into `None`. `Extract` returns an `Outcome`: either `Returns`
with a value or `Raises`.

A JSON number with a fraction or an exponent is a Python float. The model
holds such a number as the exact decimal `JFloat(digits, scale)`.

The repair loop and the formatting loop change state step by step, so they
are methods with loop invariants: `Extractor.RepairSourceLinks` and
`Formatter.AppendSourceLines`. Each is proved equal to a specification
function (`Extractor.Repaired`, `Formatter.SourceLines`), and the lemmas are
proved about those functions. The source repeats the repair loop word for
word in both decode branches (lines 52-58 and 67-73). The model writes it
once, as `Extractor.NormalizeSources`, and calls it from both branches.

Behaviours of the code worth knowing:

- The formatter raises `AttributeError` on a record that is not a dict
  (from `.get`), and on a `sources` value that is truthy but not a dict
  (from `.items()`). Both are modelled as `Err`.
- The percentage is `int(confidence * 100)`. This truncates toward zero;
  it does not round down.
- The formatter's fallback query is stripped before its spaces become `+`.
- The extractor can raise, although it is meant to return `None` on any
  failure. A decoder exception other than `JSONDecodeError` in the first
  decode escapes it.

## Model

| member | source | states |
|---|---|---|
| `PyStr.LStrip` | analyse.py:57 | The result is the longest suffix that does not start with whitespace. Everything cut off is whitespace. |
| `PyStr.RStrip` | analyse.py:57 | The result is the longest prefix that does not end with whitespace. Everything cut off is whitespace. |
| `PyStr.Strip` | analyse.py:57 | `str.strip()`: the result is no longer than the input and neither starts nor ends with whitespace, using Python's full whitespace set. |
| `PyStr.StripKeepsTrimmed` | analyse.py:57 | A string that already has no whitespace at either end is returned unchanged. |
| `PyStr.ReplaceChar` | analyse.py:57 | `replace(' ', '+')`: the length is kept, no `' '` is left, and every other character is kept. |
| `PyStr.Take` | analyse.py:57 | `user_text[:50]`: a prefix of the text no longer than 50 characters, and the whole text when that is shorter. |
| `PyStr.IsDigitString` | analyse.py:55 | Defines `str.isdigit()`: non-empty and every character a digit. It is used by `Links.NeedsRepair`, whose properties `Links.NeedsRepairIffNoWebString` proves. |
| `PyStr.IsSpace` | analyse.py:57 | Defines the whitespace set `str.strip()` removes: Python's `str.isspace()` characters. |
| `PyStr.StartsWith` | analyse.py:55 | Defines `str.startswith` for one prefix. |
| `PyStr.Find` | analyse.py:61 | `find('{')`: -1 exactly when the character is absent. Otherwise the index holds it and no earlier index does. |
| `PyStr.RFind` | analyse.py:62 | `rfind('}')`: -1 exactly when the character is absent. Otherwise the index holds it and no later index does. |
| `PyStr.NatToString` | analyse.py:140 | `str(n)`: non-empty, all decimal digits, no leading zero. |
| `PyStr.NatToStringRoundTrip` | analyse.py:140 | Reading the digits of `str(n)` back gives `n`. |
| `PyStr.IntToString` | analyse.py:140 | `str(i)`: starts with `-` or a digit, and with a digit exactly when `i >= 0`. |
| `JsonValues.KeyIndex` | analyse.py:52 | `"sources" in data`: -1 exactly when no member has the key. Otherwise it is the position of the key and no earlier member has it. |
| `JsonValues.Get` | analyse.py:52 | Defines `data["sources"]`: the value under the key, or nothing when the key is absent. |
| `JsonValues.Str` | analyse.py:55 | Defines `str(x)` of a decoded value. `JsonValues.NonStringTextStart` proves what the link test needs from it. |
| `JsonValues.Truthy` | analyse.py:144 | Defines Python truthiness: `None`, `False`, zero, and empty strings, lists and dicts are false. `Formatter.Formatted` uses it for `if sources:`. |
| `JsonValues.NonStringTextStart` | analyse.py:55 | `str(x)` of a value that is not a string is non-empty and never starts with `h`. |
| `JsonValues.FloatToString` | analyse.py:55 | The decimal as written, in positional notation. It starts with `-` or a digit, as Python's `str` of every finite float does. |
| `Links.HasWebScheme` | analyse.py:55 | Defines `startswith(('http://', 'https://'))`. |
| `Links.NeedsRepair` | analyse.py:55 | Defines the extractor's three-part link test on `str(link)`. `Links.NeedsRepairIffNoWebString` proves its meaning. |
| `Links.SearchUrl` | analyse.py:152-154 | The result starts with `https://www.google.com/search?q=`, the query has no `' '`, and the result is no longer than the prefix plus the text. |
| `Links.ExtractorSearchLink` | analyse.py:57-58 | The synthesized link starts with the search prefix, and its query has no `' '` and is at most `title + 51` characters long. |
| `Links.ExtractorSearchLinkUsesFirst50` | analyse.py:57 | Two user texts that agree on their first 50 characters give the same link. |
| `Links.SearchUrlNeedsNoRepair` | analyse.py:55-58 | Every synthesized search link passes the extractor's link test. |
| `Links.NeedsRepairIffNoWebString` | analyse.py:55 | The three-part test rejects a link exactly when it is not a string with an `http://`/`https://` prefix. |
| `Extractor.RepairedLink` | analyse.py:55-58 | The link after repair always passes the test, and it is the old link exactly when the test accepted the old one. |
| `Extractor.Repaired` | analyse.py:53-58 | Titles and order are kept. A link changes exactly when the test rejects it. A changed link is the title's search link. No rejected link is left. |
| `Extractor.RepairKeepsKeysDistinct` | analyse.py:53-58 | A `sources` dict with distinct keys still has distinct keys after repair. |
| `Extractor.RepairIdempotent` | analyse.py:53-58 | Repairing repaired sources again, with any user text, changes nothing. |
| `Extractor.RepairSourceLinks` | analyse.py:53-58 | The in-place loop gives exactly `Repaired` of its input. |
| `Extractor.HasSourcesObject` | analyse.py:52 | Defines the guard: the value is a dict with a `sources` key that holds a dict. |
| `Extractor.WithRepairedSources` | analyse.py:52-58 | A value with no `sources` dict comes back unchanged. Otherwise the top-level keys and order are kept, only `sources` changes (to its repaired entries), and every link left passes the test. |
| `Extractor.WithRepairedSourcesIdempotent` | analyse.py:52-58 | Repairing an already repaired value changes nothing. |
| `Extractor.NormalizeSources` | analyse.py:67-73 | The repair step that both decode branches run. It gives exactly `WithRepairedSources`. |
| `Extractor.BraceGuardIffPair` | analyse.py:61-63 | The guard `start != -1 and end != -1 and start < end` holds exactly when some `{` comes before some `}`. |
| `Extractor.BraceSlice` | analyse.py:65 | The fallback text is a slice of the reply that starts with `{` and ends with `}`. No `{` comes before it and no `}` comes after it, so it runs from the first `{` to the last `}`. |
| `Extractor.ReturnedValue` | analyse.py:59 | JSON `null` is returned as `None`, and only it. Any other decoded value is returned with trusted links. |
| `Extractor.Extract` | analyse.py:41-77 | Whole-text decode first. A non-decode exception there escapes (`Raises`). Only a decode error leads to the fallback slice, and only when a brace pair exists. With no pair the result is `None`. Any failure of the fallback gives `None`. Any returned value has trusted links, and `null` is returned as `None`. |
| `Extractor.ReutersExample` | analyse.py:55-58 | Link `"123"` for `Reuters` with user text `vaccines cause X` becomes the search for `Reuters+vaccines+cause+X`. |
| `Formatter.TruncDiv` | analyse.py:136 | `int()` of a quotient truncates toward zero. The quotient's magnitude is bounded on both sides. |
| `Formatter.PercentOfUnitInterval` | analyse.py:136 | A confidence in [0, 1] renders as a percentage in [0, 100]. |
| `Formatter.IsNumber` | analyse.py:136 | Defines `isinstance(confidence, (int, float))`, where a bool counts as an int. |
| `Formatter.Percent` | analyse.py:136 | Defines `int(confidence * 100)` in exact decimal arithmetic. A bool counts as an int, and truncation is by `Formatter.TruncDiv`. |
| `Formatter.PercentOfHundredths` | analyse.py:136 | In exact decimal arithmetic, a two-decimal confidence such as 0.85 renders as its digits (85). Python's binary floats can give one less, as "## Left out" says. |
| `Formatter.ConfidenceText` | analyse.py:136 | Defines the shown confidence: `str` of the percentage for a number, and `str` of the value itself otherwise. |
| `Formatter.Header` | analyse.py:139-141 | Defines the three lines every message starts with. `Formatter.Formatted` proves that every message starts with them. |
| `Formatter.VerdictLine` | analyse.py:139 | Defines `Verdict:  {verdict} ` followed by a blank line. |
| `Formatter.ConfidenceLine` | analyse.py:140 | Defines `Confidence: {confidence_percent}% ` followed by a blank line. |
| `Formatter.ReasonLine` | analyse.py:141 | Defines `Reason: {reason} ` followed by a blank line. |
| `Formatter.GetOr` | analyse.py:130-133 | `d.get(key, default)`: the value under the key, or the default when no member has that key. |
| `Formatter.SourcesField` | analyse.py:133 | Defines `json_data.get("sources", {})`. |
| `Formatter.ShownVerbatim` | analyse.py:148 | Defines the formatter's own link test: a string with a web prefix. |
| `Formatter.RenderedLink` | analyse.py:148-154 | Defines the link shown for a source. `Formatter.RenderedLinkAgreesWithRepair` proves its properties. |
| `Formatter.SourceLine` | analyse.py:149 | Defines one source line, `- [title](link)` and a newline, as written at lines 149 and 155. |
| `Formatter.SourceLines` | analyse.py:146-155 | The `- [title](link)` lines, one per source in dict order. They are empty exactly when there are no sources. |
| `Formatter.RenderedLinkAgreesWithRepair` | analyse.py:148-154 | The shown link is always a web link. The formatter keeps a stored link exactly when the extractor's test accepts it. Otherwise it shows the search for the title and the `input` field. |
| `Formatter.SourceLinesExtend` | analyse.py:146-155 | The lines for the first `i + 1` sources are those for the first `i`, followed by the line for source `i`. |
| `Formatter.Formatted` | analyse.py:129-156 | It fails only on a non-dict record, or on a truthy `sources` that is not a dict. It starts with the verdict, confidence and reason lines, with defaults. It has a sources section exactly when `sources` is truthy. |
| `Formatter.AppendSourceLines` | analyse.py:146-155 | The append loop adds exactly the specified lines, one per source in dict order. |
| `Formatter.FormatText` | analyse.py:119-156 | The string-building method gives exactly `Formatted`. |
| `Formatter.SourceLinesIgnoreInput` | analyse.py:146-155 | When every stored link passes the extractor's test, the source lines do not depend on `input`. |
| `Formatter.RepairedLinksShownAsStored` | analyse.py:146-155 | After the extractor's repair, every source is shown with the link the extractor stored, a string, whatever `input` holds. The source lines are therefore the same for every `input`. |
| `Formatter.MissingFieldsRenderDefaults` | analyse.py:130-141 | A record with none of the four fields renders as `Verdict:  Unknown`, `Confidence: 0%`, an empty reason, and no sources section. |
| `Formatter.BbcExample` | analyse.py:130-155 | Confidence 0.5 renders as `Confidence: 50%`, and the web link `https://bbc.com/x` appears as `- [BBC](https://bbc.com/x)`. |

## Left out

- `analyze_news` (analyse.py:21-39) calls the remote generative-AI service, so it is not modelled.
- `create_news_input` (analyse.py:81-117) does an HTTP fetch and a file read and builds an SDK payload, so it is not modelled.
- The client and `.env` setup (analyse.py:10-19) and the console entry point (analyse.py:160-179) are configuration and console I/O.
- bot.py is chat-platform glue and is not part of this model. It calls the extractor without user text, so the default `""` applies. It treats any falsy result as a failure.
- `json.loads` is the parameter `parse`. The model does not say which texts decode, nor which raise `RecursionError` or `ValueError` rather than `JSONDecodeError`; `Decoded.OtherError` stands for all of them. The decoder's own guarantees (distinct keys) are not checked. The `NaN` and `Infinity` floats it accepts are not modelled.
- `Extractor.Extract` takes the reply as a string. A `None` reply raises `TypeError` in Python, and that case is not modelled.
- `Extractor.RepairSourceLinks` overwrites entries of a sequence value. Aliasing of the Python dict is not modelled: nothing else holds a reference to it.
- Dafny strings hold Unicode scalar values. A Python `str` may also hold a lone surrogate, which `json.loads('"\\ud800"')` can produce. Such strings are not modelled; no operation here treats surrogates specially.
- `JsonValues.Json` keeps a float as the decimal it was written as, while `json.loads` keeps the nearest double. So several cases differ. `1e-400` decodes to `0.0` in Python, which is falsy; here it is a non-zero decimal, so `{"sources": 1e-400}` formats in Python but is `Err(SourcesNotADict)` here. `0.1000000000000000055` prints as `0.1` in Python, while `JsonValues.Str` writes every digit. `-0.0` prints as `-0.0` in Python, and `JFloat` has no negative zero. `1e400` decodes to `inf` in Python and is a finite decimal here. None of these can make a link pass the extractor's test, because the text of a float never starts with `h`.
- `JsonValues.Str` writes floats in positional notation. Python's exponent form for very large or very small magnitudes is not modelled. Inside lists and dicts, strings are quoted with `'` and no escaping; Python's quote choice and escaping are not modelled. Neither difference can make a non-string value pass the link test (`JsonValues.NonStringTextStart`).
- `PyStr.IsDigitString` covers only the ASCII digits, not all of Python's Unicode digits. This does not change the link test: any text with a web prefix starts with `h` (`Links.NeedsRepairIffNoWebString`).
- `Formatter.Formatted`: two further raises of the source are not modelled, and the model returns `Ok` for both. An int confidence of 4299 or 4300 digits decodes, but `confidence * 100` then has more than 4300 digits, so the f-string at analyse.py:140 raises `ValueError` (Python's int-to-str digit limit). A finite float confidence above about 1.8e306 makes `confidence * 100` overflow to `inf`, so `int()` at analyse.py:136 raises `OverflowError`. Integers here are unbounded and floats are exact decimals, so neither limit exists in the model.
- `Formatter.Percent` uses exact decimal arithmetic. Python's binary rounding in `confidence * 100` is not modelled: 0.57 gives 56 in Python and 57 here. The `ValueError` and `OverflowError` that `int()` raises on NaN or infinity are not modelled either.
