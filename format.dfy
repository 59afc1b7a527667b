/**
 * `json_to_formatted_text` (analyse.py:119-156): render a verdict record as
 * the chat message text, with defaults for missing fields and a markdown
 * link per source.
 */
module Formatter {
  import opened PyStr
  import opened Wrappers
  import opened JsonValues
  import opened Links
  import opened Extractor

  /** What Python raises: `.get` on a value that is not a dict, or
      `.items()` on a truthy `sources` that is not a dict (both an
      `AttributeError`). */
  datatype FormatError = RecordNotADict | SourcesNotADict

  /** `d.get(key, default)`: the value stored under the first occurrence of
      `key`, or `default` when no member has that key. */
  function GetOr(members: seq<(string, Json)>, key: string, default: Json): (r: Json)
    ensures KeyIndex(members, key) == -1 ==> r == default
    ensures KeyIndex(members, key) != -1 ==> r == members[KeyIndex(members, key)].1
  {
    match Get(members, key)
    case Some(v) => v
    case None => default
  }

  /** `isinstance(x, (int, float))`; a Python `bool` is an `int`. */
  predicate IsNumber(x: Json) {
    x.JBool? || x.JInt? || x.JFloat?
  }

  /** Python's `int(x)` of a quotient `a / b`: truncation toward zero. */
  function TruncDiv(a: int, b: int): (r: int)
    requires b > 0
    ensures a >= 0 ==> 0 <= r && r * b <= a < (r + 1) * b
    ensures a < 0 ==> r <= 0 && (-r) * b <= -a < (-r + 1) * b
  {
    if a >= 0 then
      DivBounds(a, b);
      a / b
    else
      DivBounds(-a, b);
      -((-a) / b)
  }

  /** Division of naturals rounds down. */
  lemma DivBounds(a: nat, b: nat)
    requires b > 0
    ensures 0 <= a / b && (a / b) * b <= a < (a / b + 1) * b
  {
    var q, m := a / b, a % b;
    assert a == q * b + m && 0 <= m < b;
    assert (q + 1) * b == q * b + b;
  }

  function Pow10(n: nat): (r: nat)
    ensures r > 0
  {
    if n == 0 then 1 else 10 * Pow10(n - 1)
  }

  /** `int(confidence * 100)` (analyse.py:136). */
  function Percent(confidence: Json): int
    requires IsNumber(confidence)
  {
    match confidence
    case JBool(b) => if b then 100 else 0
    case JInt(i) => i * 100
    case JFloat(d, scale) => TruncDiv(d * 100, Pow10(scale))
  }

  /** A confidence in [0, 1] renders as a percentage in [0, 100]. */
  lemma PercentOfUnitInterval(digits: int, scale: nat)
    requires 0 <= digits <= Pow10(scale)
    ensures 0 <= Percent(JFloat(digits, scale)) <= 100
  {
    var p := Pow10(scale);
    var r := TruncDiv(digits * 100, p);
    assert r * p <= digits * 100 <= 100 * p;
    if r > 100 {
      MulMonotone(101, r, p);
    }
  }

  lemma MulMonotone(a: int, b: int, c: nat)
    requires a <= b
    ensures a * c <= b * c
  {
  }

  /** A confidence written with two decimals renders as those digits:
      0.85 gives 85. */
  lemma PercentOfHundredths(digits: int)
    ensures Percent(JFloat(digits, 2)) == digits
  {
    assert Pow10(2) == 100;
  }

  /** The confidence as shown: the percentage when it is a number, its text
      otherwise. */
  function ConfidenceText(confidence: Json): string {
    if IsNumber(confidence) then IntToString(Percent(confidence)) else Str(confidence)
  }

  /** The three lines every message starts with (analyse.py:139-141). */
  function Header(verdict: Json, confidence: Json, reason: Json): string {
    VerdictLine(verdict) + ConfidenceLine(confidence) + ReasonLine(reason)
  }

  function VerdictLine(verdict: Json): string {
    "Verdict:  " + Str(verdict) + " \n\n"
  }

  function ConfidenceLine(confidence: Json): string {
    "Confidence: " + ConfidenceText(confidence) + "% \n\n"
  }

  function ReasonLine(reason: Json): string {
    "Reason: " + Str(reason) + " \n\n"
  }

  /** The formatter's own link test (analyse.py:148): a string with an
      `http://` or `https://` prefix is shown as it is. */
  predicate ShownVerbatim(source: Json) {
    source.JString? && HasWebScheme(source.s)
  }

  /** The link shown for a source (analyse.py:148-154). */
  function RenderedLink(title: string, source: Json, input: Json): string {
    if ShownVerbatim(source) then source.s else SearchUrl(title + " " + Str(input))
  }

  /** The link shown for a source is always a web link. The formatter keeps
      exactly the links the extractor keeps, and replaces any other with a
      search for the title and the record's `input` text. */
  lemma RenderedLinkAgreesWithRepair(title: string, source: Json, input: Json)
    ensures HasWebScheme(RenderedLink(title, source, input))
    ensures !NeedsRepair(source) ==> source.JString? && RenderedLink(title, source, input) == source.s
    ensures NeedsRepair(source) ==> RenderedLink(title, source, input) == SearchUrl(title + " " + Str(input))
  {
    NeedsRepairIffNoWebString(source);
    if !ShownVerbatim(source) {
      var r := SearchUrl(title + " " + Str(input));
      assert r[..8] == "https://";
    }
  }

  /** `- [title](link)` and a newline. */
  function SourceLine(title: string, link: string): string {
    "- [" + title + "](" + link + ")\n"
  }

  /** One line per source, in the dict's order; no sources, no lines. */
  function SourceLines(sources: seq<(string, Json)>, input: Json): (r: string)
    ensures r == "" <==> sources == []
  {
    if sources == [] then ""
    else
      var last := sources[|sources| - 1];
      SourceLines(sources[..|sources| - 1], input) + SourceLine(last.0, RenderedLink(last.0, last.1, input))
  }

  /** The lines of the first `i + 1` sources extend those of the first `i`
      by the line of source `i`. */
  lemma SourceLinesExtend(sources: seq<(string, Json)>, input: Json, i: nat)
    requires i < |sources|
    ensures SourceLines(sources[..i + 1], input)
            == SourceLines(sources[..i], input)
               + SourceLine(sources[i].0, RenderedLink(sources[i].0, sources[i].1, input))
  {
    assert sources[..i + 1][..i] == sources[..i];
    assert sources[..i + 1][i] == sources[i];
  }

  /** Regrouping one append; stated apart so the loop of `AppendSourceLines` reasons about
      the regrouped text without unfolding the appended lines. */
  lemma AppendAssociates(text: string, lines: string, line: string)
    ensures (text + lines) + line == text + (lines + line)
  {
  }

  /** The record's `sources` field, or an empty dict when it is missing. */
  function SourcesField(members: seq<(string, Json)>): Json {
    GetOr(members, "sources", JObject([]))
  }

  /** `json_to_formatted_text(json_data)`. It fails only on a record that is
      not a dict or whose `sources` is truthy but not a dict. The message
      starts with the verdict, confidence and reason lines, with "Unknown",
      0 and "" for missing fields, and has more than those lines exactly
      when `sources` is truthy. */
  function Formatted(data: Json): (r: Result<string, FormatError>)
    ensures r.Err? <==> !data.JObject?
                        || (Truthy(SourcesField(data.members)) && !SourcesField(data.members).JObject?)
    ensures r.Ok? ==>
              var head := Header(GetOr(data.members, "verdict", JString("Unknown")),
                                 GetOr(data.members, "confidence", JInt(0)),
                                 GetOr(data.members, "reason", JString("")));
              StartsWith(r.value, head)
              && (r.value == head <==> !Truthy(SourcesField(data.members)))
  {
    match data
    case JObject(members) =>
      var head := Header(GetOr(members, "verdict", JString("Unknown")),
                         GetOr(members, "confidence", JInt(0)),
                         GetOr(members, "reason", JString("")));
      var sources := SourcesField(members);
      if !Truthy(sources) then Ok(head)
      else if sources.JObject? then
        var lines := SourceLines(sources.members, GetOr(members, "input", JString("")));
        AppendKeepsPrefix(head, "Sources:\n", lines);
        Ok(head + "Sources:\n" + lines)
      else Err(SourcesNotADict)
    case _ => Err(RecordNotADict)
  }

  /** Appending to a text keeps it as a prefix, and appending something
      non-empty makes it longer. */
  lemma AppendKeepsPrefix(head: string, mid: string, tail: string)
    ensures StartsWith(head + mid + tail, head)
    ensures mid != [] ==> head + mid + tail != head
  {
    assert (head + mid + tail)[..|head|] == head;
  }

  /** The loop of analyse.py:146-155: append one line per source to
      `text`, in the dict's order. */
  method AppendSourceLines(text: string, sources: seq<(string, Json)>, input: Json)
    returns (result: string)
    ensures result == text + SourceLines(sources, input)
  {
    result := text;
    var i := 0;
    while i < |sources|
      invariant 0 <= i <= |sources|
      invariant result == text + SourceLines(sources[..i], input)
    {
      var title, source := sources[i].0, sources[i].1;
      var line := SourceLine(title, RenderedLink(title, source, input));
      SourceLinesExtend(sources, input, i);
      AppendAssociates(text, SourceLines(sources[..i], input), line);
      result := result + line;
      i := i + 1;
    }
    assert i == |sources|;
    assert sources[..i] == sources;
    assert SourceLines(sources[..i], input) == SourceLines(sources, input);
  }

  /** `json_to_formatted_text(json_data)` (analyse.py:119-156): the
      defaults, the three lines, and the sources section built by
      appending to the text. */
  method FormatText(data: Json) returns (r: Result<string, FormatError>)
    ensures r == Formatted(data)
  {
    if !data.JObject? {
      return Err(RecordNotADict);
    }
    var members := data.members;
    var verdict := GetOr(members, "verdict", JString("Unknown"));
    var confidence := GetOr(members, "confidence", JInt(0));
    var reason := GetOr(members, "reason", JString(""));
    var sources := SourcesField(members);
    var text := Header(verdict, confidence, reason);
    if Truthy(sources) {
      if !sources.JObject? {
        return Err(SourcesNotADict);
      }
      text := AppendSourceLines(text + "Sources:\n", sources.members, GetOr(members, "input", JString("")));
    }
    return Ok(text);
  }

  /** When every stored link passes the extractor's test, the lines do not
      depend on the record's `input`: each shows its stored link. */
  lemma {:induction false} SourceLinesIgnoreInput(sources: seq<(string, Json)>, input: Json, other: Json)
    requires forall k :: 0 <= k < |sources| ==> !NeedsRepair(sources[k].1)
    ensures SourceLines(sources, input) == SourceLines(sources, other)
  {
    if sources != [] {
      var last := sources[|sources| - 1];
      SourceLinesIgnoreInput(sources[..|sources| - 1], input, other);
      RenderedLinkAgreesWithRepair(last.0, last.1, input);
      RenderedLinkAgreesWithRepair(last.0, last.1, other);
    }
  }

  /** After the extractor's repair, the formatter shows every source with
      the link the extractor stored, whatever the `input` field holds. */
  lemma RepairedLinksShownAsStored(sources: seq<(string, Json)>, userText: string, input: Json)
    ensures var r := Repaired(sources, userText);
            forall k :: 0 <= k < |r| ==> r[k].1.JString? && RenderedLink(r[k].0, r[k].1, input) == r[k].1.s
    ensures SourceLines(Repaired(sources, userText), input)
            == SourceLines(Repaired(sources, userText), JString(""))
  {
    var r := Repaired(sources, userText);
    SourceLinesIgnoreInput(r, input, JString(""));
    forall k | 0 <= k < |r|
      ensures r[k].1.JString? && RenderedLink(r[k].0, r[k].1, input) == r[k].1.s
    {
      RenderedLinkAgreesWithRepair(r[k].0, r[k].1, input);
    }
  }

  /** A record with none of the four fields renders with the defaults. */
  lemma MissingFieldsRenderDefaults(members: seq<(string, Json)>)
    requires forall k :: 0 <= k < |members| ==>
               members[k].0 != "verdict" && members[k].0 != "confidence"
               && members[k].0 != "reason" && members[k].0 != "sources"
    ensures Formatted(JObject(members))
            == Ok("Verdict:  Unknown \n\n" + "Confidence: 0% \n\n" + "Reason:  \n\n")
  {
    assert Get(members, "verdict") == None;
    assert Get(members, "confidence") == None;
    assert Get(members, "reason") == None;
    assert Get(members, "sources") == None;
    DefaultHeader();
  }

  lemma DefaultHeader()
    ensures Header(JString("Unknown"), JInt(0), JString(""))
            == "Verdict:  Unknown \n\n" + "Confidence: 0% \n\n" + "Reason:  \n\n"
  {
    assert ConfidenceText(JInt(0)) == "0";
    assert VerdictLine(JString("Unknown")) == "Verdict:  Unknown \n\n";
    assert ConfidenceLine(JInt(0)) == "Confidence: 0% \n\n";
    assert ReasonLine(JString("")) == "Reason:  \n\n";
  }

  /** A record with verdict "Uncertain", confidence 0.5, reason "mixed" and
      one source, "BBC", linked to `https://bbc.com/x`. */
  function BbcRecord(): Json {
    JObject([("verdict", JString("Uncertain")), ("confidence", JFloat(5, 1)),
             ("reason", JString("mixed")),
             ("sources", JObject([("BBC", JString("https://bbc.com/x"))]))])
  }

  /** Confidence 0.5 shows as 50%, and a web link is shown as it is. */
  lemma BbcExample()
    ensures Formatted(BbcRecord())
            == Ok("Verdict:  Uncertain \n\n" + "Confidence: 50% \n\n" + "Reason: mixed \n\n"
                  + "Sources:\n" + "- [BBC](https://bbc.com/x)\n")
  {
    BbcFields();
    BbcHeader();
    BbcLines();
  }

  lemma BbcFields()
    ensures var members := BbcRecord().members;
            GetOr(members, "verdict", JString("Unknown")) == JString("Uncertain")
            && GetOr(members, "confidence", JInt(0)) == JFloat(5, 1)
            && GetOr(members, "reason", JString("")) == JString("mixed")
            && SourcesField(members) == JObject([("BBC", JString("https://bbc.com/x"))])
            && GetOr(members, "input", JString("")) == JString("")
  {
    BbcKeys();
  }

  lemma BbcKeys()
    ensures var members := BbcRecord().members;
            KeyIndex(members, "verdict") == 0 && KeyIndex(members, "confidence") == 1
            && KeyIndex(members, "reason") == 2 && KeyIndex(members, "sources") == 3
            && KeyIndex(members, "input") == -1
  {
    var members := BbcRecord().members;
    assert KeyIndex(members, "verdict") == 0;
    assert KeyIndex(members[1..], "confidence") == 0;
    assert KeyIndex(members[2..], "reason") == 0;
    assert KeyIndex(members[3..], "sources") == 0;
    assert KeyIndex(members[4..], "input") == -1;
  }

  lemma BbcHeader()
    ensures Header(JString("Uncertain"), JFloat(5, 1), JString("mixed"))
            == "Verdict:  Uncertain \n\n" + "Confidence: 50% \n\n" + "Reason: mixed \n\n"
  {
    BbcConfidence();
    assert VerdictLine(JString("Uncertain")) == "Verdict:  Uncertain \n\n";
    assert ConfidenceLine(JFloat(5, 1)) == "Confidence: 50% \n\n";
    assert ReasonLine(JString("mixed")) == "Reason: mixed \n\n";
  }

  lemma BbcConfidence()
    ensures ConfidenceText(JFloat(5, 1)) == "50"
  {
    assert Pow10(1) == 10;
    assert Percent(JFloat(5, 1)) == 50;
    assert NatToString(5) == "5";
    assert IntToString(50) == "50";
  }

  lemma BbcLines()
    ensures SourceLines([("BBC", JString("https://bbc.com/x"))], JString(""))
            == "- [BBC](https://bbc.com/x)\n"
  {
    var x: (string, Json) := ("BBC", JString("https://bbc.com/x"));
    calc {
      SourceLines([x], JString(""));
    == { assert [x][..0] == []; }
      SourceLine(x.0, RenderedLink(x.0, x.1, JString("")));
    == { BbcLink(); }
      SourceLine("BBC", "https://bbc.com/x");
    ==
      "- [BBC](https://bbc.com/x)\n";
    }
  }

  lemma BbcLink()
    ensures RenderedLink("BBC", JString("https://bbc.com/x"), JString("")) == "https://bbc.com/x"
  {
    assert "https://bbc.com/x"[..8] == "https://";
  }
}
