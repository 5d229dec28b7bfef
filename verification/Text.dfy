/** The few string tests the service makes. */
module Text {

  predicate OccursAt(text: string, part: string, i: int) {
    0 <= i <= |text| - |part| && text[i..i + |part|] == part
  }

  predicate Contains(text: string, part: string) {
    exists i :: 0 <= i <= |text| - |part| && OccursAt(text, part, i)
  }

  predicate EndsWith(text: string, part: string) {
    |part| <= |text| && text[|text| - |part|..] == part
  }

  /** Lower case, for the ASCII letters. */
  function Lower(text: string): (r: string)
    ensures |r| == |text|
    ensures forall i :: 0 <= i < |r| && 'A' <= text[i] <= 'Z' ==> r[i] as int == text[i] as int + 32
    ensures forall i :: 0 <= i < |r| && !('A' <= text[i] <= 'Z') ==> r[i] == text[i]
  {
    seq(|text|, i requires 0 <= i < |text| =>
      if 'A' <= text[i] <= 'Z' then (text[i] as int + 32) as char else text[i])
  }

  /** A part is contained where the text can be cut around it. */
  lemma ContainsIff(text: string, part: string)
    ensures Contains(text, part) <==> exists before, after :: text == before + part + after
  {
    if Contains(text, part) {
      var i :| 0 <= i <= |text| - |part| && OccursAt(text, part, i);
      assert text == text[..i] + part + text[i + |part|..];
    }
    if before, after :| text == before + part + after {
      assert OccursAt(text, part, |before|);
    }
  }

  lemma EndsWithIff(text: string, part: string)
    ensures EndsWith(text, part) <==> exists before :: text == before + part
  {
    if EndsWith(text, part) {
      assert text == text[..|text| - |part|] + part;
    }
  }
}
