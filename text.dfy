/**
 * The string helpers scrapeFeeds uses to classify a failed post insert:
 * `strings.ToLower` (restricted to ASCII) and `strings.Contains`.
 */
module Text {

  predicate IsUpper(c: char) {
    'A' <= c <= 'Z'
  }

  function LowerChar(c: char): char {
    if IsUpper(c) then (c as int + 32) as char else c
  }

  /** ASCII lower-casing, character by character. */
  function ToLower(s: string): (r: string)
    ensures |r| == |s|
  {
    if s == [] then [] else [LowerChar(s[0])] + ToLower(s[1..])
  }

  /** Position k of the lower-cased string holds s[k] lower-cased: no upper-case
      letter is left, an upper-case letter moves by 32 code points to its
      lower-case partner, and every other character is kept. */
  lemma {:induction false} ToLowerAt(s: string, k: int)
    requires 0 <= k < |s|
    ensures ToLower(s)[k] == LowerChar(s[k])
    ensures !IsUpper(ToLower(s)[k])
    ensures IsUpper(s[k]) ==> ToLower(s)[k] as int == s[k] as int + 32
    ensures !IsUpper(s[k]) ==> ToLower(s)[k] == s[k]
  {
    if k > 0 {
      ToLowerAt(s[1..], k - 1);
    }
  }

  /** Lower-casing commutes with taking a slice. */
  lemma ToLowerSlice(s: string, i: int, j: int)
    requires 0 <= i <= j <= |s|
    ensures ToLower(s)[i..j] == ToLower(s[i..j])
  {
    var a, b := ToLower(s)[i..j], ToLower(s[i..j]);
    assert |a| == j - i == |b|;
    forall k | 0 <= k < j - i ensures a[k] == b[k] {
      ToLowerAt(s, i + k);
      ToLowerAt(s[i..j], k);
      assert s[i..j][k] == s[i + k];
    }
    assert a == b;
  }

  predicate OccursAt(s: string, sub: string, i: int) {
    0 <= i && i + |sub| <= |s| && s[i..i + |sub|] == sub
  }

  /** `strings.Contains(s, sub)`, scanning s from the left. */
  predicate Contains(s: string, sub: string)
    decreases |s|
  {
    if |sub| > |s| then false
    else s[..|sub|] == sub || (s != [] && Contains(s[1..], sub))
  }

  /** Contains holds exactly when sub occurs at some position of s. */
  lemma {:induction false} ContainsOccurs(s: string, sub: string)
    ensures Contains(s, sub) <==> exists i :: OccursAt(s, sub, i)
    decreases |s|
  {
    if |sub| > |s| {
      assert forall i :: !OccursAt(s, sub, i);
    } else if s[..|sub|] == sub {
      assert OccursAt(s, sub, 0);
    } else {
      assert s != [];
      ContainsOccurs(s[1..], sub);
      if i :| OccursAt(s[1..], sub, i) {
        assert s[1..][i..i + |sub|] == s[i + 1..i + 1 + |sub|];
        assert OccursAt(s, sub, i + 1);
      }
      if j :| OccursAt(s, sub, j) {
        assert j != 0;
        assert s[1..][j - 1..j - 1 + |sub|] == s[j..j + |sub|];
        assert OccursAt(s[1..], sub, j - 1);
      }
    }
  }

  /** The test scrapeFeeds applies to an insert error message: it is a
      duplicate-key violation when its lower-cased text contains "unique". */
  predicate IsUniqueViolation(msg: string) {
    Contains(ToLower(msg), "unique")
  }

  /** The six characters of msg from position i are "unique" in some mix of cases. */
  predicate SpellsUnique(msg: string, i: int) {
    0 <= i && i + 6 <= |msg| && ToLower(msg[i..i + 6]) == "unique"
  }

  /** The test is case-insensitive: it holds exactly when some six-character
      stretch of the message is "unique" in any mix of cases. */
  lemma UniqueViolationAnyCase(msg: string)
    ensures IsUniqueViolation(msg) <==> exists i :: SpellsUnique(msg, i)
  {
    ContainsOccurs(ToLower(msg), "unique");
    if i :| OccursAt(ToLower(msg), "unique", i) {
      ToLowerSlice(msg, i, i + 6);
      assert SpellsUnique(msg, i);
    }
    if i :| SpellsUnique(msg, i) {
      ToLowerSlice(msg, i, i + 6);
      assert OccursAt(ToLower(msg), "unique", i);
    }
  }
}
