/** Trimming, on ASCII white space. */
module Texts {

  predicate IsSpace(c: char) {
    c == ' ' || '\t' <= c <= '\r'
  }

  function TrimSpace(s: string): string {
    if s != [] && IsSpace(s[|s| - 1]) then TrimSpace(s[..|s| - 1])
    else if s != [] && IsSpace(s[0]) then TrimSpace(s[1..])
    else s
  }

  /** Exactly the white space around the text goes. */
  lemma {:induction false} TrimsExactly(s: string) returns (before: string, after: string)
    ensures s == before + TrimSpace(s) + after
    ensures forall k :: 0 <= k < |before| ==> IsSpace(before[k])
    ensures forall k :: 0 <= k < |after| ==> IsSpace(after[k])
    ensures var text := TrimSpace(s); text != [] ==> !IsSpace(text[0]) && !IsSpace(text[|text| - 1])
  {
    if s != [] && IsSpace(s[|s| - 1]) {
      before, after := TrimsExactly(s[..|s| - 1]);
      after := after + [s[|s| - 1]];
    } else if s != [] && IsSpace(s[0]) {
      before, after := TrimsExactly(s[1..]);
      before := [s[0]] + before;
    } else {
      before, after := [], [];
    }
  }
}
