/**
 * `extract_json_from_response` (analyse.py:41-77): recover a JSON value from
 * a model's free-form reply and repair the links in its `sources` object.
 *
 * The JSON decoder (`json.loads`) is a parameter `parse`, which returns the
 * decoded value, a decode error, or some other exception.
 */
module Extractor {
  import opened PyStr
  import opened Wrappers
  import opened JsonValues
  import opened Links

  /** One entry of a `sources` object: a title and its link. */
  type Source = (string, Json)

  /** The link a source has after repair: one the extractor's test
      accepts, and the old link exactly when the test accepted that. */
  function RepairedLink(title: string, link: Json, userText: string): (r: Json)
    ensures !NeedsRepair(r)
    ensures r == link <==> !NeedsRepair(link)
  {
    SearchUrlNeedsNoRepair(title + " " + Take(userText, 50));
    if NeedsRepair(link) then JString(ExtractorSearchLink(title, userText)) else link
  }

  /** The `sources` entries after the repair loop of analyse.py:53-58:
      titles and their order are kept, a link is replaced exactly when the
      extractor's test rejects it, a replaced link is the search link for
      its title, and no link is left that the test rejects. */
  function Repaired(sources: seq<Source>, userText: string): (r: seq<Source>)
    ensures |r| == |sources|
    ensures forall k :: 0 <= k < |r| ==> r[k].0 == sources[k].0
    ensures forall k :: 0 <= k < |r| ==> (r[k].1 != sources[k].1 <==> NeedsRepair(sources[k].1))
    ensures forall k :: 0 <= k < |r| && NeedsRepair(sources[k].1) ==>
              r[k].1 == JString(ExtractorSearchLink(sources[k].0, userText))
    ensures forall k :: 0 <= k < |r| ==> !NeedsRepair(r[k].1)
  {
    seq(|sources|, k requires 0 <= k < |sources| =>
          (sources[k].0, RepairedLink(sources[k].0, sources[k].1, userText)))
  }

  /** Repair keeps the `sources` object a dict: its keys stay distinct. */
  lemma RepairKeepsKeysDistinct(sources: seq<Source>, userText: string)
    requires UniqueKeys(sources)
    ensures UniqueKeys(Repaired(sources, userText))
  {
  }

  /** A second repair, with any user text, changes nothing. */
  lemma RepairIdempotent(sources: seq<Source>, userText: string, again: string)
    ensures Repaired(Repaired(sources, userText), again) == Repaired(sources, userText)
  {
    var once := Repaired(sources, userText);
    var twice := Repaired(once, again);
    assert forall k :: 0 <= k < |twice| ==> twice[k] == once[k];
  }

  /** The repair loop: each link the test rejects is overwritten in place;
      titles and order stay as they were. */
  method RepairSourceLinks(sources: seq<Source>, userText: string) returns (repaired: seq<Source>)
    ensures repaired == Repaired(sources, userText)
  {
    repaired := sources;
    var i := 0;
    while i < |sources|
      invariant 0 <= i <= |sources| && |repaired| == |sources|
      invariant forall k :: 0 <= k < i ==>
                  repaired[k] == (sources[k].0, RepairedLink(sources[k].0, sources[k].1, userText))
      invariant forall k :: i <= k < |sources| ==> repaired[k] == sources[k]
    {
      var (title, link) := repaired[i];
      if NeedsRepair(link) {
        repaired := repaired[i := (title, JString(ExtractorSearchLink(title, userText)))];
      }
      i := i + 1;
    }
  }

  /** The parsed value is a dict with a `sources` key holding a dict
      (the guard of analyse.py:52 and 67). */
  predicate HasSourcesObject(data: Json) {
    data.JObject? && Get(data.members, "sources").Some? && Get(data.members, "sources").value.JObject?
  }

  /** Every link in the value's `sources` dict, if it has one, passes the
      extractor's test. */
  predicate SourcesTrusted(data: Json) {
    HasSourcesObject(data) ==>
      var sources := Get(data.members, "sources").value.members;
      forall k :: 0 <= k < |sources| ==> !NeedsRepair(sources[k].1)
  }

  /** The parsed value after link repair. A value without a `sources` dict
      comes back unchanged; otherwise only the value under `sources`
      changes, to its repaired entries, and the top-level keys and their
      order are kept. */
  function WithRepairedSources(data: Json, userText: string): (r: Json)
    ensures !HasSourcesObject(data) ==> r == data
    ensures HasSourcesObject(data) ==>
              r.JObject? && |r.members| == |data.members|
              && (forall k :: 0 <= k < |r.members| ==> r.members[k].0 == data.members[k].0)
              && (forall k :: 0 <= k < |r.members| && data.members[k].0 != "sources" ==>
                    r.members[k] == data.members[k])
              && Get(r.members, "sources")
                 == Some(JObject(Repaired(Get(data.members, "sources").value.members, userText)))
    ensures SourcesTrusted(r)
  {
    match data
    case JObject(members) =>
      var k := KeyIndex(members, "sources");
      if k >= 0 && members[k].1.JObject? then
        var r := JObject(members[k := ("sources", JObject(Repaired(members[k].1.members, userText)))]);
        KeyIndexByKeys(members, r.members, "sources");
        r
      else data
    case _ => data
  }

  /** Repairing an already repaired value changes nothing. */
  lemma WithRepairedSourcesIdempotent(data: Json, userText: string, again: string)
    ensures WithRepairedSources(WithRepairedSources(data, userText), again)
            == WithRepairedSources(data, userText)
  {
    var once := WithRepairedSources(data, userText);
    if HasSourcesObject(data) {
      var members := data.members;
      var k := KeyIndex(members, "sources");
      RepairIdempotent(members[k].1.members, userText, again);
      KeyIndexByKeys(members, once.members, "sources");
    }
  }

  /** Lines 52-58 (and again 67-73): repair the `sources` dict of a parsed
      value, if it has one. */
  method NormalizeSources(data: Json, userText: string) returns (r: Json)
    ensures r == WithRepairedSources(data, userText)
  {
    r := data;
    if data.JObject? {
      var k := KeyIndex(data.members, "sources");
      if k >= 0 && data.members[k].1.JObject? {
        var repaired := RepairSourceLinks(data.members[k].1.members, userText);
        r := JObject(data.members[k := ("sources", JObject(repaired))]);
      }
    }
  }

  /** Some `{` comes before some `}` in the text. */
  predicate HasBracePair(text: string) {
    exists i, j :: 0 <= i < j < |text| && text[i] == '{' && text[j] == '}'
  }

  /** The fallback's guard (analyse.py:61-63) holds exactly when some `{`
      comes before some `}`. */
  lemma BraceGuardIffPair(text: string)
    ensures (Find(text, '{') != -1 && RFind(text, '}') != -1 && Find(text, '{') < RFind(text, '}'))
            <==> HasBracePair(text)
  {
    var start, end := Find(text, '{'), RFind(text, '}');
    if HasBracePair(text) {
      var i, j :| 0 <= i < j < |text| && text[i] == '{' && text[j] == '}';
      assert text[i] in text && text[j] in text;
      assert text[..start + 1][start] == '{';
    }
  }

  /** The text from the first `{` to the last `}`, both included. */
  function BraceSlice(text: string): (r: string)
    requires HasBracePair(text)
    ensures |r| >= 2 && r[0] == '{' && r[|r| - 1] == '}'
    ensures '{' !in text[..Find(text, '{')] && '}' !in text[RFind(text, '}') + 1..]
    ensures exists i :: 0 <= i <= |text| - |r| && r == text[i..i + |r|]
                        && '{' !in text[..i] && '}' !in text[i + |r|..]
  {
    BraceGuardIffPair(text);
    text[Find(text, '{')..RFind(text, '}') + 1]
  }

  /** What `json.loads` does with a text: it returns a value, raises
      `JSONDecodeError`, or raises some other exception (`RecursionError`
      on deeply nested input, `ValueError` on an integer literal of more
      than 4300 digits). */
  datatype Decoded = Value(json: Json) | DecodeError | OtherError

  /** How a call of `extract_json_from_response` ends: it returns a value,
      `None` standing for Python's `None`, or an exception escapes it. */
  datatype Outcome = Returns(result: Option<Json>) | Raises

  /** What the function returns for a decoded value: JSON `null` decodes to
      Python's `None`, which is returned as it is; any other value comes
      back with its sources repaired. */
  function ReturnedValue(data: Json, userText: string): (r: Option<Json>)
    ensures r == None <==> data.JNull?
    ensures r.Some? ==> SourcesTrusted(r.value)
  {
    if data.JNull? then None else Some(WithRepairedSources(data, userText))
  }

  /** `extract_json_from_response(response_text, user_text)`. The whole
      reply is decoded first. Only a `JSONDecodeError` there leads to the
      fallback; any other exception escapes. The fallback decodes the slice
      from the first `{` to the last `}`, and only when some `{` comes
      before some `}`. Its bare `except` turns every failure into `None`,
      as does the lack of a brace pair. A decoded value has its sources
      repaired. */
  method Extract(parse: string -> Decoded, responseText: string, userText: string)
    returns (r: Outcome)
    ensures parse(responseText).Value? ==>
              r == Returns(ReturnedValue(parse(responseText).json, userText))
    ensures parse(responseText).OtherError? ==> r == Raises
    ensures parse(responseText).DecodeError? && !HasBracePair(responseText) ==> r == Returns(None)
    ensures parse(responseText).DecodeError? && HasBracePair(responseText) ==>
              r == Returns(match parse(BraceSlice(responseText))
                           case Value(v) => ReturnedValue(v, userText)
                           case _ => None)
    ensures r.Returns? && r.result.Some? ==> SourcesTrusted(r.result.value)
  {
    var whole := parse(responseText);
    if whole.OtherError? {
      return Raises;
    }
    if whole.Value? {
      var data := NormalizeSources(whole.json, userText);
      return Returns(if data.JNull? then None else Some(data));
    }
    var start := Find(responseText, '{');
    var end := RFind(responseText, '}');
    BraceGuardIffPair(responseText);
    if start != -1 && end != -1 && start < end {
      var part := parse(responseText[start..end + 1]);
      if part.Value? {
        var data := NormalizeSources(part.json, userText);
        return Returns(if data.JNull? then None else Some(data));
      }
      return Returns(None);
    }
    return Returns(None);
  }

  /** A numeric link "123" for "Reuters", with user text
      "vaccines cause X", becomes a search for "Reuters vaccines cause X". */
  lemma ReutersExample()
    ensures Repaired([("Reuters", JString("123"))], "vaccines cause X")
            == [("Reuters", JString(SearchBase + "Reuters+vaccines+cause+X"))]
  {
    ReutersSearchLink();
    var r := Repaired([("Reuters", JString("123"))], "vaccines cause X");
    assert NeedsRepair(JString("123"));
    assert r[0] == ("Reuters", JString(SearchBase + "Reuters+vaccines+cause+X"));
  }

  lemma ReutersSearchLink()
    ensures ExtractorSearchLink("Reuters", "vaccines cause X") == SearchBase + "Reuters+vaccines+cause+X"
  {
    assert Take("vaccines cause X", 50) == "vaccines cause X";
    assert "Reuters" + " " + "vaccines cause X" == "Reuters vaccines cause X";
    ReutersSearchUrl();
  }

  lemma ReutersSearchUrl()
    ensures SearchUrl("Reuters vaccines cause X") == SearchBase + "Reuters+vaccines+cause+X"
  {
    ReutersQuery();
    assert Strip("Reuters vaccines cause X") == "Reuters vaccines cause X" by {
      var text := "Reuters vaccines cause X";
      assert !IsSpace(text[0]) && !IsSpace(text[|text| - 1]);
      StripKeepsTrimmed(text);
    }
  }

  lemma ReutersQuery()
    ensures ReplaceChar("Reuters vaccines cause X", ' ', '+') == "Reuters+vaccines+cause+X"
  {
    var q := ReplaceChar("Reuters vaccines cause X", ' ', '+');
    assert forall k :: 0 <= k < 24 ==> q[k] == "Reuters+vaccines+cause+X"[k];
  }
}
