/**
 * The few pieces of `java.lang.String` behaviour the property resolver relies on:
 * substring search (`String.contains`), concatenation with a possibly-null operand,
 * and lower-casing under the English locale.
 */
module JavaText {
  import opened Wrappers

  /** The text Java's `+` appends for a reference operand: the string itself, or `"null"`. */
  function NullableText(v: Option<string>): string {
    v.GetOr("null")
  }

  /** Java's `prefix + v` where `v` may be null. */
  function Concat(prefix: string, v: Option<string>): (r: string)
    ensures |prefix| <= |r| && r[..|prefix|] == prefix
    ensures v.Some? ==> r[|prefix|..] == v.value
    ensures v.None? ==> r[|prefix|..] == "null"
  {
    prefix + NullableText(v)
  }

  /** `t` occurs in `s` starting at position `i`. */
  ghost predicate OccursAt(s: string, t: string, i: int) {
    0 <= i && i + |t| <= |s| && s[i..i + |t|] == t
  }

  /** `t` occurs somewhere in `s`: the meaning of `s.contains(t)`. */
  ghost predicate HasSubstring(s: string, t: string) {
    exists i :: OccursAt(s, t, i)
  }

  /** When `t` does not start `s`, it occurs in `s` exactly when it occurs in `s` minus its first character. */
  lemma OccursInTail(s: string, t: string)
    requires |s| > 0 && !OccursAt(s, t, 0)
    ensures HasSubstring(s, t) <==> HasSubstring(s[1..], t)
  {
    if HasSubstring(s, t) {
      var i :| OccursAt(s, t, i);
      assert s[1..][i - 1..i - 1 + |t|] == s[i..i + |t|];
      assert OccursAt(s[1..], t, i - 1);
    }
    if HasSubstring(s[1..], t) {
      var j :| OccursAt(s[1..], t, j);
      assert s[1..][j..j + |t|] == s[j + 1..j + 1 + |t|];
      assert OccursAt(s, t, j + 1);
    }
  }

  /** `s.contains(t)`, computed by trying each start position from the left. */
  function Contains(s: string, t: string): (b: bool)
    ensures b <==> HasSubstring(s, t)
    decreases |s|
  {
    if |t| > |s| then
      false
    else if s[..|t|] == t then
      assert OccursAt(s, t, 0);
      true
    else
      OccursInTail(s, t);
      Contains(s[1..], t)
  }

  /** Searching for a one-character string is testing membership of that character. */
  lemma ContainsSingleChar(s: string, c: char)
    ensures Contains(s, [c]) <==> c in s
  {
    if c in s {
      var i :| 0 <= i < |s| && s[i] == c;
      assert s[i..i + 1] == [c];
      assert OccursAt(s, [c], i);
    }
    if Contains(s, [c]) {
      var i :| OccursAt(s, [c], i);
      assert s[i] == s[i..i + 1][0];
    }
  }

  predicate IsAsciiUpper(c: char) {
    'A' <= c <= 'Z'
  }

  /** `s` has no upper-case ASCII letter, as every property-name constant is. */
  predicate NoAsciiUpper(s: string) {
    forall i :: 0 <= i < |s| ==> !IsAsciiUpper(s[i])
  }

  /** The two characters are the same letter up to ASCII case, or simply equal. */
  predicate SameIgnoringCase(x: char, y: char) {
    || x == y
    || (IsAsciiUpper(x) && y as int == x as int + 32)
    || (IsAsciiUpper(y) && x as int == y as int + 32)
  }

  /** `a` and `b` spell the same text up to ASCII case. */
  predicate EqualIgnoringCase(a: string, b: string) {
    |a| == |b| && forall i :: 0 <= i < |a| ==> SameIgnoringCase(a[i], b[i])
  }

  function LowerChar(c: char): char {
    if IsAsciiUpper(c) then (c as int + 32) as char else c
  }

  /** `s.toLowerCase(Locale.ENGLISH)` restricted to ASCII: upper-case ASCII letters become lower-case. */
  function ToLowerEnglish(s: string): (r: string)
    ensures NoAsciiUpper(r)
    ensures EqualIgnoringCase(s, r)
    ensures NoAsciiUpper(s) ==> r == s
  {
    if |s| == 0 then [] else [LowerChar(s[0])] + ToLowerEnglish(s[1..])
  }

  /** Lower-casing works character by character. */
  lemma {:induction false} LowerCharAt(s: string, i: int)
    requires 0 <= i < |s|
    ensures ToLowerEnglish(s)[i] == LowerChar(s[i])
    decreases i
  {
    if i > 0 {
      LowerCharAt(s[1..], i - 1);
    }
  }

  /** Two characters lower-case to the same character exactly when they are equal up to ASCII case. */
  lemma LowerCharSame(x: char, y: char)
    ensures LowerChar(x) == LowerChar(y) <==> SameIgnoringCase(x, y)
  {
  }

  /** Lower-casing identifies exactly the strings that are equal up to ASCII case. */
  lemma LowerEqualIffEqualIgnoringCase(a: string, b: string)
    ensures ToLowerEnglish(a) == ToLowerEnglish(b) <==> EqualIgnoringCase(a, b)
  {
    var la, lb := ToLowerEnglish(a), ToLowerEnglish(b);
    if la == lb {
      forall i | 0 <= i < |a|
        ensures SameIgnoringCase(a[i], b[i])
      {
        LowerCharAt(a, i);
        LowerCharAt(b, i);
        LowerCharSame(a[i], b[i]);
      }
    }
    if EqualIgnoringCase(a, b) {
      forall i | 0 <= i < |la|
        ensures la[i] == lb[i]
      {
        LowerCharAt(a, i);
        LowerCharAt(b, i);
        LowerCharSame(a[i], b[i]);
      }
    }
  }
}
