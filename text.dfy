/**
 * Python string operations used by the site search and the PDF report:
 * `str.isspace`, `str.strip`, `str.lower` and the substring test `q in s`.
 */
module Text {

  /** The characters for which Python's `str.isspace()` holds. */
  predicate IsSpace(c: char)
  {
    var n := c as int;
    || (0x09 <= n <= 0x0D)
    || (0x1C <= n <= 0x20)
    || n == 0x85 || n == 0xA0 || n == 0x1680
    || (0x2000 <= n <= 0x200A)
    || n == 0x2028 || n == 0x2029 || n == 0x202F || n == 0x205F || n == 0x3000
  }

  /** The number of whitespace characters at the start of `s`. */
  function LeadingSpaces(s: string): (n: nat)
    ensures n <= |s|
    ensures forall i :: 0 <= i < n ==> IsSpace(s[i])
    ensures n < |s| ==> !IsSpace(s[n])
  {
    if |s| > 0 && IsSpace(s[0]) then
      var rest := LeadingSpaces(s[1..]);
      assert forall i :: 1 <= i < rest + 1 ==> s[i] == s[1..][i - 1];
      1 + rest
    else 0
  }

  /** The number of whitespace characters at the end of `s`. */
  function TrailingSpaces(s: string): (n: nat)
    ensures n <= |s|
    ensures forall i :: |s| - n <= i < |s| ==> IsSpace(s[i])
    ensures n < |s| ==> !IsSpace(s[|s| - n - 1])
  {
    if |s| > 0 && IsSpace(s[|s| - 1]) then
      var rest := TrailingSpaces(s[..|s| - 1]);
      1 + rest
    else 0
  }

  /**
   * `s.strip()`: `s` without its leading and trailing whitespace. The result
   * is empty exactly when `s` is all whitespace, and otherwise neither starts
   * nor ends with whitespace.
   */
  function Strip(s: string): (r: string)
    ensures |r| <= |s|
    ensures r == [] <==> forall i :: 0 <= i < |s| ==> IsSpace(s[i])
    ensures r != [] ==> !IsSpace(r[0]) && !IsSpace(r[|r| - 1])
    ensures LeadingSpaces(s) + |r| <= |s| && r == s[LeadingSpaces(s)..LeadingSpaces(s) + |r|]
    ensures forall c :: c in r ==> c in s
  {
    var a := LeadingSpaces(s);
    if a == |s| then []
    else
      var b := |s| - TrailingSpaces(s);
      assert a < b;
      s[a..b]
  }

  /** Stripping removes only whitespace: `s` is the result with whitespace on either side of it. */
  lemma StripRemovesOnlySpace(s: string)
    ensures forall i :: 0 <= i < LeadingSpaces(s) ==> IsSpace(s[i])
    ensures forall i :: LeadingSpaces(s) + |Strip(s)| <= i < |s| ==> IsSpace(s[i])
  {
    var a := LeadingSpaces(s);
    if a < |s| {
      var b := |s| - TrailingSpaces(s);
      assert a + |Strip(s)| == b;
    }
  }

  /** Stripping twice is stripping once. */
  lemma StripIdempotent(s: string)
    ensures Strip(Strip(s)) == Strip(s)
  {
    var r := Strip(s);
    if r != [] {
      assert LeadingSpaces(r) == 0;
      assert TrailingSpaces(r) == 0;
      assert r[0..|r|] == r;
    }
  }

  /** `str.lower()` on a character: ASCII and Latin-1 capitals move to their small letters. */
  function LowerChar(c: char): (d: char)
    ensures 'A' <= c <= 'Z' ==> d as int == c as int + 32
    ensures 'À' <= c <= 'Þ' && c != '×' ==> d as int == c as int + 32
    ensures !('A' <= c <= 'Z') && !('À' <= c <= 'Þ' && c != '×') ==> d == c
  {
    if 'A' <= c <= 'Z' || ('À' <= c <= 'Þ' && c != '×') then (c as int + 32) as char else c
  }

  /** `s.lower()`, character by character. */
  function Lower(s: string): (r: string)
    ensures |r| == |s|
    ensures forall i :: 0 <= i < |s| ==> r[i] == LowerChar(s[i])
  {
    seq(|s|, i requires 0 <= i < |s| => LowerChar(s[i]))
  }

  /** Lowering a concatenation lowers each part. */
  lemma LowerAppend(a: string, b: string)
    ensures Lower(a + b) == Lower(a) + Lower(b)
  {
  }

  /** `q` occurs in `s` at position `i`. */
  ghost predicate OccursAt(q: string, s: string, i: int)
  {
    0 <= i && i + |q| <= |s| && s[i..i + |q|] == q
  }

  /** `q` is a prefix of `s`. */
  predicate IsPrefix(q: string, s: string)
  {
    |q| <= |s| && s[..|q|] == q
  }

  /** Python's `q in s` on strings: `q` occurs somewhere in `s` (the empty string occurs everywhere). */
  function Contains(q: string, s: string): (r: bool)
    ensures r <==> exists i :: OccursAt(q, s, i)
    decreases |s|
  {
    if IsPrefix(q, s) then
      assert OccursAt(q, s, 0);
      true
    else if |s| == 0 then
      assert forall i :: !OccursAt(q, s, i);
      false
    else
      var rest := Contains(q, s[1..]);
      assert forall i :: OccursAt(q, s[1..], i) <==> OccursAt(q, s, i + 1) by {
        forall i ensures OccursAt(q, s[1..], i) <==> OccursAt(q, s, i + 1) {
          if 0 <= i && i + |q| <= |s| - 1 {
            assert s[1..][i..i + |q|] == s[i + 1..i + 1 + |q|];
          }
        }
      }
      assert !OccursAt(q, s, 0);
      assert rest ==> OccursAt(q, s, WitnessIndex(q, s[1..]) + 1);
      assert (exists i :: OccursAt(q, s, i)) ==> rest by {
        if exists i :: OccursAt(q, s, i) {
          var i :| OccursAt(q, s, i);
          assert i != 0;
          assert OccursAt(q, s[1..], i - 1);
        }
      }
      rest
  }

  /** A position where `q` occurs, when it occurs at all. */
  ghost function WitnessIndex(q: string, s: string): (i: int)
    requires exists i :: OccursAt(q, s, i)
    ensures OccursAt(q, s, i)
  {
    var i :| OccursAt(q, s, i); i
  }
}
