/** The value-level helpers of src/utils.ts: the all-zero default trace id, the
    stringification of audit data and the conditional append used to assemble the
    transport list. (The two binders of the same file are in module Binding.) */
module Utils {
  import opened Js

  /** `'0'.repeat(count)`. */
  function Repeat(count: nat): (r: string)
    ensures |r| == count
    ensures forall i :: 0 <= i < count ==> r[i] == '0'
  {
    if count == 0 then "" else "0" + Repeat(count - 1)
  }

  /** The Nil UUID (section 5.9 of RFC 9562, section 4.1.7 of RFC 4122). */
  const NilUuid: string := "00000000-0000-0000-0000-000000000000"

  /** `defaultUUID()`: runs of '0' of lengths 8, 4, 4, 4 and 12 joined by '-'. */
  function DefaultUUID(): (r: string)
    ensures |r| == 36
    ensures forall i :: 0 <= i < 36 ==> r[i] == (if i == 8 || i == 13 || i == 18 || i == 23 then '-' else '0')
    ensures r == NilUuid
  {
    var runs := [Repeat(8), Repeat(4), Repeat(4), Repeat(4), Repeat(12)];
    JoinFiveRuns(runs);
    Join(runs, "-")
  }

  /** The join of the five runs, written out, is the Nil UUID. */
  lemma JoinFiveRuns(runs: seq<string>)
    requires runs == [Repeat(8), Repeat(4), Repeat(4), Repeat(4), Repeat(12)]
    ensures Join(runs, "-") == NilUuid
  {
    assert Repeat(4) == "0000";
    assert Repeat(8) == "00000000";
    assert Repeat(12) == "000000000000";
    calc {
      Join(runs, "-");
      runs[0] + "-" + Join(runs[1..], "-");
      runs[0] + "-" + (runs[1] + "-" + Join(runs[2..], "-"));
      runs[0] + "-" + (runs[1] + "-" + (runs[2] + "-" + Join(runs[3..], "-")));
      runs[0] + "-" + (runs[1] + "-" + (runs[2] + "-" + (runs[3] + "-" + Join(runs[4..], "-"))));
      runs[0] + "-" + (runs[1] + "-" + (runs[2] + "-" + (runs[3] + "-" + runs[4])));
      "00000000" + "-" + ("0000" + "-" + ("0000" + "-" + ("0000" + "-" + "000000000000")));
      NilUuid;
    }
  }

  /** A value that can be passed as audit data: `undefined`, `null`, a string, or an
      object, known here only by the text `JSON.stringify` gives for it. */
  datatype Data = Undefined | Null | Text(text: string) | Object(json: string)

  /** JavaScript truthiness of audit data: every object is truthy, the empty string is not. */
  predicate DataTruthy(d: Data)
  {
    (d.Text? && d.text != "") || d.Object?
  }

  /** `toString(obj)`: a string passes through unchanged, anything else is JSON-encoded;
      `JSON.stringify(undefined)` gives `undefined`. */
  function ToString(obj: Data): (r: Option<string>)
    ensures obj.Text? ==> r == Some(obj.text)
    ensures r.None? <==> obj.Undefined?
    ensures obj.Null? ==> r == Some("null")
    ensures obj.Object? ==> r == Some(obj.json)
  {
    match obj
    case Text(s) => Some(s)
    case Undefined => None
    case Null => Some("null")
    case Object(json) => Some(json)
  }

  /** `appendWhen(itemFactory, condition)(arr)`: a new array, `arr` followed by
      `itemFactory()` when the condition is truthy, and `arr` itself otherwise.
      The condition is passed already converted to a boolean (`!!condition`). */
  function AppendWhen<T>(itemFactory: () -> T, condition: bool, arr: seq<T>): (r: seq<T>)
    ensures condition ==> |r| == |arr| + 1 && r[..|arr|] == arr && r[|arr|] == itemFactory()
    ensures !condition ==> r == arr
  {
    if condition then arr + [itemFactory()] else arr
  }
}
