/**
 * The Python value `json.loads` produces, and Python's `key in value` on it.
 * The parser itself is a foreign call and is not modelled.
 */
module JsonValue {
  import opened Wrappers

  datatype Json =
    | Null
    | Bool(b: bool)
    | Number(n: real)
    | Str(s: string)
    | Array(items: seq<Json>)        // a Python list
    | Object(fields: map<string, Json>)  // a Python dict

  /** `needle` occurs in `hay` at the start. */
  predicate StartsWith(hay: string, needle: string) {
    |needle| <= |hay| && hay[..|needle|] == needle
  }

  /** Python's `needle in hay` for two strings: a substring test. */
  predicate IsSubstring(needle: string, hay: string)
    decreases |hay|
  {
    StartsWith(hay, needle) || (hay != [] && IsSubstring(needle, hay[1..]))
  }

  /** `needle` occurs in `hay` starting at offset `i`. */
  predicate OccursAt(needle: string, hay: string, i: nat) {
    i + |needle| <= |hay| && hay[i..i + |needle|] == needle
  }

  lemma {:induction false} OccursAtGivesSubstring(needle: string, hay: string, i: nat)
    requires OccursAt(needle, hay, i)
    ensures IsSubstring(needle, hay)
  {
    if i > 0 {
      assert hay[1..][i - 1..i - 1 + |needle|] == hay[i..i + |needle|];
      OccursAtGivesSubstring(needle, hay[1..], i - 1);
    }
  }

  lemma {:induction false} SubstringHasOffset(needle: string, hay: string)
    requires IsSubstring(needle, hay)
    ensures exists i: nat :: OccursAt(needle, hay, i)
    decreases |hay|
  {
    if StartsWith(hay, needle) {
      assert OccursAt(needle, hay, 0);
    } else {
      SubstringHasOffset(needle, hay[1..]);
      var j: nat :| OccursAt(needle, hay[1..], j);
      assert hay[1..][j..j + |needle|] == hay[j + 1..j + 1 + |needle|];
      assert OccursAt(needle, hay, j + 1);
    }
  }

  /** The recursive substring test means: `needle` occurs at some offset of `hay`. */
  lemma IsSubstringIff(needle: string, hay: string)
    ensures IsSubstring(needle, hay) <==> exists i: nat :: OccursAt(needle, hay, i)
  {
    if IsSubstring(needle, hay) {
      SubstringHasOffset(needle, hay);
    }
    if i: nat :| OccursAt(needle, hay, i) {
      OccursAtGivesSubstring(needle, hay, i);
    }
  }

  /**
   * Python's `key in container` for a string key: membership of the keys of a
   * dict, a substring test on a string, element equality on a list. On a number,
   * a boolean or None it raises TypeError, which is `None` here.
   */
  function Contains(container: Json, key: string): (r: Option<bool>)
    ensures r.None? <==> !(container.Object? || container.Str? || container.Array?)
  {
    match container
    case Object(fields) => Some(key in fields)
    case Str(s) => Some(IsSubstring(key, s))
    case Array(items) => Some(Str(key) in items)
    case _ => None
  }
}
