/** Optional values, and JSON values as a host stores or sends them. */
module Basics {

  datatype Option<+T> = None | Some(value: T)

  /** A decoded or rejected value: strict parsing never coerces. */
  datatype Result<+T> = Ok(value: T) | Bad {
    predicate IsFailure() {
      Bad?
    }

    function PropagateFailure<U>(): Result<U>
      requires IsFailure()
    {
      Bad
    }

    function Extract(): T
      requires !IsFailure()
    {
      value
    }
  }

  datatype Json =
    | JNull
    | JBool(flag: bool)
    | JInt(number: int)
    | JReal(decimal: real)
    | JStr(text: string)
    | JArr(items: seq<Json>)
    | JObj(fields: map<string, Json>)

  /** The characters Python's `str.strip` removes. */
  predicate IsSpace(c: char) {
    '\U{0009}' <= c <= '\U{000D}' || '\U{001C}' <= c <= '\U{0020}' || c == '\U{0085}' || c == '\U{00A0}'
    || c == '\U{1680}' || '\U{2000}' <= c <= '\U{200A}' || c == '\U{2028}' || c == '\U{2029}'
    || c == '\U{202F}' || c == '\U{205F}' || c == '\U{3000}'
  }

  predicate Blank(text: string) {
    forall k :: 0 <= k < |text| ==> IsSpace(text[k])
  }

  function StripLeft(text: string): string {
    if |text| > 0 && IsSpace(text[0]) then StripLeft(text[1..]) else text
  }

  function StripRight(text: string): string {
    if |text| > 0 && IsSpace(text[|text| - 1]) then StripRight(text[..|text| - 1]) else text
  }

  /** The text without the white space around it. */
  function Strip(text: string): string {
    StripRight(StripLeft(text))
  }

  lemma {:induction false} StripLeftEnds(text: string)
    ensures |StripLeft(text)| > 0 ==> !IsSpace(StripLeft(text)[0])
    ensures StripLeft(text) == "" <==> Blank(text)
    decreases |text|
  {
    if |text| > 0 && IsSpace(text[0]) {
      StripLeftEnds(text[1..]);
      assert text == [text[0]] + text[1..];
    }
  }

  lemma {:induction false} StripRightEnds(text: string)
    ensures |StripRight(text)| > 0 ==> !IsSpace(StripRight(text)[|StripRight(text)| - 1])
    ensures StripRight(text) <= text
    ensures StripRight(text) == "" <==> Blank(text)
    decreases |text|
  {
    if |text| > 0 && IsSpace(text[|text| - 1]) {
      StripRightEnds(text[..|text| - 1]);
      assert text == text[..|text| - 1] + [text[|text| - 1]];
    }
  }

  /** A stripped text starts and ends with a visible character, and stripping it again changes nothing. */
  lemma StripIsStable(text: string)
    ensures Strip(Strip(text)) == Strip(text)
    ensures Strip(text) == "" <==> Blank(text)
    ensures Blank(Strip(text)) <==> Strip(text) == ""
  {
    var left := StripLeft(text);
    StripLeftEnds(text);
    StripRightEnds(left);
    var stripped := StripRight(left);
    if stripped != "" {
      assert stripped[0] == left[0];
    }
  }

  /** A member of a JSON object; a missing one reads as null. */
  function Get(fields: map<string, Json>, key: string): Json {
    if key in fields then fields[key] else JNull
  }

  function OptText(o: Option<string>): Json {
    match o
    case None => JNull
    case Some(text) => JStr(text)
  }
}
