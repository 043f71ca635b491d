/** Shared vocabulary: optional values, results and substring search. */
module Prelude {

  datatype Option<+T> = None | Some(value: T) {
    function GetOr(default: T): T {
      match this
      case Some(v) => v
      case None => default
    }
  }

  datatype Result<+T, +E> = Ok(value: T) | Err(error: E)

  /** `needle` occurs in `text` starting at index `i`. */
  predicate OccursAt(text: string, needle: string, i: nat) {
    i + |needle| <= |text| && text[i..i + |needle|] == needle
  }

  /** strings.Contains. */
  predicate Contains(text: string, needle: string) {
    exists i: nat | i <= |text| :: OccursAt(text, needle, i)
  }

  lemma OccurrenceIsContained(text: string, needle: string, i: nat)
    requires OccursAt(text, needle, i)
    ensures Contains(text, needle)
  {
  }

  lemma ContainsShifts(before: string, text: string, after: string, needle: string)
    requires Contains(text, needle)
    ensures Contains(before + text + after, needle)
  {
    var i: nat :| i <= |text| && OccursAt(text, needle, i);
    var whole := before + text + after;
    var j := |before| + i;
    assert whole[j..j + |needle|] == text[i..i + |needle|];
    OccurrenceIsContained(whole, needle, j);
  }

  lemma AppendKeeps(text: string, after: string, needle: string)
    requires Contains(text, needle)
    ensures Contains(text + after, needle)
  {
    ContainsShifts("", text, after, needle);
    assert "" + text + after == text + after;
  }

  lemma PrependKeeps(before: string, text: string, needle: string)
    requires Contains(text, needle)
    ensures Contains(before + text, needle)
  {
    ContainsShifts(before, text, "", needle);
    assert before + text + "" == before + text;
  }
}
