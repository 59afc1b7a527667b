/**
 * The values Python's `json.loads` produces, and what analyse.py asks of
 * them: dictionary lookup (`d.get(k, default)`, `k in d`), truthiness
 * (`if sources:`) and conversion to text (`str(x)`, `f"{x}"`).
 */
module JsonValues {
  import opened PyStr
  import opened Wrappers

  /** A decoded JSON value. A JSON object is a Python `dict`: its members
      are kept in insertion order, and the decoder gives them distinct keys.
      A JSON number with a fraction or an exponent is a Python `float`,
      held here as the decimal `digits * 10^-scale` it was written as, not
      as the nearest double that Python keeps. */
  datatype Json =
    | JNull
    | JBool(b: bool)
    | JInt(i: int)
    | JFloat(digits: int, scale: nat)
    | JString(s: string)
    | JArray(items: seq<Json>)
    | JObject(members: seq<(string, Json)>)

  /** Distinct keys, as in every Python `dict`. */
  predicate UniqueKeys(members: seq<(string, Json)>) {
    forall i, j :: 0 <= i < j < |members| ==> members[i].0 != members[j].0
  }

  /** The position of `key` among the members, or -1 when it is not a key
      (the first position, should the keys not be distinct). */
  function KeyIndex(members: seq<(string, Json)>, key: string): (r: int)
    ensures -1 <= r < |members|
    ensures r == -1 <==> forall k :: 0 <= k < |members| ==> members[k].0 != key
    ensures r >= 0 ==> members[r].0 == key && forall k :: 0 <= k < r ==> members[k].0 != key
  {
    if members == [] then -1
    else if members[0].0 == key then 0
    else
      var k := KeyIndex(members[1..], key);
      if k == -1 then -1 else k + 1
  }

  /** Where a key stands depends only on the keys, not on the values. */
  lemma KeyIndexByKeys(a: seq<(string, Json)>, b: seq<(string, Json)>, key: string)
    requires |a| == |b| && forall k :: 0 <= k < |a| ==> a[k].0 == b[k].0
    ensures KeyIndex(a, key) == KeyIndex(b, key)
  {
  }

  /** `d.get(key)`: the value stored under `key`, if any. */
  function Get(members: seq<(string, Json)>, key: string): Option<Json> {
    var k := KeyIndex(members, key);
    if k == -1 then None else Some(members[k].1)
  }

  /** Python truthiness: `None`, `False`, zero, and empty strings, lists and
      dicts are false; everything else is true. */
  predicate Truthy(j: Json) {
    match j
    case JNull => false
    case JBool(b) => b
    case JInt(i) => i != 0
    case JFloat(d, _) => d != 0
    case JString(s) => s != ""
    case JArray(items) => items != []
    case JObject(members) => members != []
  }

  /** Python's `str(j)`, which is also what an f-string writes. */
  function Str(j: Json): string {
    Render(j, false)
  }

  /** `str(j)` when `quoted` is false and `repr(j)` when it is true; the two
      differ only on strings, which `repr` puts in quotes. Inside a list or
      a dict, `str` writes each element with `repr`. */
  function Render(j: Json, quoted: bool): string
    decreases j
  {
    match j
    case JNull => "None"
    case JBool(b) => if b then "True" else "False"
    case JInt(i) => IntToString(i)
    case JFloat(d, scale) => FloatToString(d, scale)
    case JString(s) => if quoted then "'" + s + "'" else s
    case JArray(items) =>
      "[" + Join(seq(|items|, k requires 0 <= k < |items| => Render(items[k], true))) + "]"
    case JObject(members) =>
      "{" + Join(seq(|members|, k requires 0 <= k < |members| =>
                       assert members[k] in members;
                       "'" + members[k].0 + "': " + Render(members[k].1, true))) + "}"
  }

  /** `", ".join(parts)`. */
  function Join(parts: seq<string>): string {
    if parts == [] then ""
    else if |parts| == 1 then parts[0]
    else parts[0] + ", " + Join(parts[1..])
  }

  /** `s` with zeros put in front until it is `width` characters long. */
  function PadLeft(s: string, width: nat): (r: string)
    requires forall k :: 0 <= k < |s| ==> IsDigit(s[k])
    ensures |r| >= width && |r| >= |s|
    ensures forall k :: 0 <= k < |r| ==> IsDigit(r[k])
    decreases width - |s|
  {
    if |s| >= width then s else PadLeft("0" + s, width)
  }

  function TrimTrailingZeros(s: string): string {
    if s != [] && s[|s| - 1] == '0' then TrimTrailingZeros(s[..|s| - 1]) else s
  }

  /** The decimal `digits * 10^-scale` as written, in positional notation:
      the integer part, a point, and the fraction without trailing zeros (at
      least one digit), as in `0.85`, `1.0`, `-2.5`. This is Python's `str`
      of the float when the decimal is exactly the shortest text of a double
      in the range Python writes without an exponent. */
  function FloatToString(digits: int, scale: nat): (r: string)
    ensures |r| > 0 && (r[0] == '-' || IsDigit(r[0]))
  {
    if digits < 0 then "-" + UnsignedFloatToString(-digits, scale)
    else UnsignedFloatToString(digits, scale)
  }

  /** The digits of `magnitude`, with at least one before the point, and a
      point put `scale` places from the right. */
  function UnsignedFloatToString(magnitude: nat, scale: nat): (r: string)
    ensures |r| > 0 && IsDigit(r[0])
  {
    var s := PadLeft(NatToString(magnitude), scale + 1);
    var whole := s[..|s| - scale];
    var fraction := TrimTrailingZeros(s[|s| - scale..]);
    assert IsDigit(whole[0]);
    whole + "." + (if fraction == "" then "0" else fraction)
  }

  /** The text of a value that is not a string never starts with `h`: it
      starts with one of `N`, `T`, `F`, `-`, a digit, `[` or `{`. */
  lemma NonStringTextStart(j: Json)
    requires !j.JString?
    ensures |Str(j)| > 0 && Str(j)[0] != 'h'
  {
    match j
    case JArray(items) =>
      assert Str(j)[0] == '[';
    case JObject(members) =>
      assert Str(j)[0] == '{';
    case _ =>
  }
}
