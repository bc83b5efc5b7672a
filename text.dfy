/** The two string operations the classifier relies on: `String.prototype.toLowerCase`
    and `String.prototype.includes`. */
module Text {

  /** Upper-case letters that `LowerChar` maps: ASCII A-Z and the Latin-1 capitals
      U+00C0..U+00DE except the multiplication sign U+00D7. */
  predicate IsUpper(c: char) {
    ('A' <= c <= 'Z') || ('À' <= c <= 'Þ' && c != '×')
  }

  /** Lower-cases one character; every other character is left as it is. */
  function LowerChar(c: char): (d: char)
    ensures !IsUpper(d)
    ensures !IsUpper(c) ==> d == c
    ensures IsUpper(c) ==> d as int == c as int + 32
  {
    if IsUpper(c) then (c as int + 32) as char else c
  }

  /** `toLowerCase`: the character-wise map of `LowerChar`. */
  function ToLower(s: string): (r: string)
    ensures |r| == |s|
    ensures forall i :: 0 <= i < |s| ==> r[i] == LowerChar(s[i])
  {
    if s == [] then [] else [LowerChar(s[0])] + ToLower(s[1..])
  }

  /** Lower-casing a string that holds no upper-case letter changes nothing. */
  lemma {:induction false} ToLowerFixed(s: string)
    requires forall i :: 0 <= i < |s| ==> !IsUpper(s[i])
    ensures ToLower(s) == s
  {
    if s != [] {
      ToLowerFixed(s[1..]);
    }
  }

  /** Lower-casing is idempotent. */
  lemma ToLowerIdempotent(s: string)
    ensures ToLower(ToLower(s)) == ToLower(s)
  {
    ToLowerFixed(ToLower(s));
  }

  /** `pattern` occurs in `text` starting at index `i`. */
  ghost predicate OccursAt(text: string, pattern: string, i: int) {
    0 <= i && i + |pattern| <= |text| && text[i..i + |pattern|] == pattern
  }

  /** `pattern` is a contiguous substring of `text`. */
  ghost predicate IsSubstring(pattern: string, text: string) {
    exists i :: OccursAt(text, pattern, i)
  }

  /** An occurrence in the tail is an occurrence one index further in the text. */
  lemma OccursAtTail(text: string, pattern: string, i: int)
    requires text != [] && 0 <= i
    ensures OccursAt(text[1..], pattern, i) <==> OccursAt(text, pattern, i + 1)
  {
    if 0 <= i && i + |pattern| <= |text| - 1 {
      assert text[1..][i..i + |pattern|] == text[i + 1..i + 1 + |pattern|];
    }
  }

  /** `text.includes(pattern)`: a left-to-right scan for an occurrence. */
  function Includes(text: string, pattern: string): (b: bool)
    ensures b <==> IsSubstring(pattern, text)
    decreases |text|
  {
    if |pattern| > |text| then
      false
    else if text[..|pattern|] == pattern then
      assert OccursAt(text, pattern, 0);
      true
    else
      var b := Includes(text[1..], pattern);
      assert b <==> IsSubstring(pattern, text) by {
        if b {
          var j :| OccursAt(text[1..], pattern, j);
          OccursAtTail(text, pattern, j);
        }
        if IsSubstring(pattern, text) {
          var j :| OccursAt(text, pattern, j);
          assert j != 0;
          OccursAtTail(text, pattern, j - 1);
        }
      }
      b
  }
}
