/**
 * The few functions of Go's `strings` package that the invoice flows use,
 * on `string` (`seq<char>`): `Replace` with a one-character pattern and
 * `n = -1`, `TrimPrefix`, `Contains` and an ASCII-only `ToLower`.
 */
module Strings {

  /**
   * strings.Replace(s, string(target), subst, -1): every occurrence of the
   * character `target` is replaced by `subst`; all other characters are kept
   * in order.
   */
  function ReplaceRune(s: string, target: char, subst: string): (r: string)
    ensures target !in subst ==> target !in r
    ensures |subst| == 1 ==> |r| == |s|
  {
    if s == [] then []
    else (if s[0] == target then subst else [s[0]]) + ReplaceRune(s[1..], target, subst)
  }

  /** Replacing by one character works position by position. */
  lemma {:induction false} ReplaceRuneAt(s: string, target: char, subst: char)
    ensures forall i :: 0 <= i < |s| ==>
      ReplaceRune(s, target, [subst])[i] == (if s[i] == target then subst else s[i])
  {
    if s != [] {
      ReplaceRuneAt(s[1..], target, subst);
      var head := if s[0] == target then [subst] else [s[0]];
      assert ReplaceRune(s, target, [subst]) == head + ReplaceRune(s[1..], target, [subst]);
    }
  }

  /** Deleting a character (an empty `subst`) keeps the count of every other character
      and shortens the string by the number of occurrences deleted. */
  lemma {:induction false} DeleteRuneCounts(s: string, target: char)
    ensures forall c :: c != target ==> multiset(ReplaceRune(s, target, ""))[c] == multiset(s)[c]
    ensures |ReplaceRune(s, target, "")| == |s| - multiset(s)[target]
  {
    if s != [] {
      DeleteRuneCounts(s[1..], target);
      assert s == [s[0]] + s[1..];
      var head := if s[0] == target then "" else [s[0]];
      assert ReplaceRune(s, target, "") == head + ReplaceRune(s[1..], target, "");
      assert multiset(ReplaceRune(s, target, "")) == multiset(head) + multiset(ReplaceRune(s[1..], target, ""));
    }
  }

  /** Replacement works piece by piece: it keeps the order of what it does not touch. */
  lemma {:induction false} ReplaceRuneAppend(a: string, b: string, target: char, subst: string)
    ensures ReplaceRune(a + b, target, subst) == ReplaceRune(a, target, subst) + ReplaceRune(b, target, subst)
  {
    if a == [] {
      assert a + b == b;
    } else {
      assert (a + b)[1..] == a[1..] + b;
      ReplaceRuneAppend(a[1..], b, target, subst);
    }
  }

  /** A string without the pattern character is returned unchanged. */
  lemma {:induction false} ReplaceRuneAbsent(s: string, target: char, subst: string)
    requires target !in s
    ensures ReplaceRune(s, target, subst) == s
  {
    if s != [] {
      assert target !in s[1..];
      ReplaceRuneAbsent(s[1..], target, subst);
    }
  }

  /** strings.TrimPrefix: drop `prefix` when `s` starts with it. */
  function TrimPrefix(s: string, prefix: string): (r: string)
    ensures prefix <= s ==> prefix + r == s
    ensures !(prefix <= s) ==> r == s
    ensures |r| <= |s|
  {
    if prefix <= s then s[|prefix|..] else s
  }

  /** `sub` occurs in `s` at position `i`. */
  predicate OccursAt(s: string, sub: string, i: int)
  {
    0 <= i && i + |sub| <= |s| && s[i..i + |sub|] == sub
  }

  /** strings.Contains, as a scan of the suffixes of `s`. */
  predicate Contains(s: string, sub: string)
    ensures Contains(s, sub) ==> |sub| <= |s|
    ensures sub == [] ==> Contains(s, sub)
    decreases |s|
  {
    sub <= s || (s != [] && Contains(s[1..], sub))
  }

  /** The scan finds `sub` exactly when it occurs somewhere in `s`. */
  lemma {:induction false} ContainsIffOccurs(s: string, sub: string)
    ensures Contains(s, sub) <==> exists i :: OccursAt(s, sub, i)
    decreases |s|
  {
    if sub <= s {
      assert OccursAt(s, sub, 0);
    } else if s == [] {
      assert !OccursAt(s, sub, 0);
    } else {
      ContainsIffOccurs(s[1..], sub);
      if Contains(s[1..], sub) {
        var i :| OccursAt(s[1..], sub, i);
        assert s[i + 1..i + 1 + |sub|] == s[1..][i..i + |sub|];
        assert OccursAt(s, sub, i + 1);
      }
      forall i | OccursAt(s, sub, i) ensures Contains(s[1..], sub) {
        if i == 0 {
          assert false;
        } else {
          assert s[1..][i - 1..i - 1 + |sub|] == s[i..i + |sub|];
          assert OccursAt(s[1..], sub, i - 1);
        }
      }
    }
  }

  /** ASCII lower-casing of one character. */
  function LowerChar(c: char): char
  {
    if 'A' <= c <= 'Z' then (c as int + 32) as char else c
  }

  /** strings.ToLower, restricted to ASCII letters. */
  function Lower(s: string): (r: string)
    ensures |r| == |s|
    ensures forall i :: 0 <= i < |s| ==> r[i] == LowerChar(s[i])
  {
    if s == [] then [] else [LowerChar(s[0])] + Lower(s[1..])
  }

  /** strings.ToLower(a) == strings.ToLower(b). */
  predicate SameLower(a: string, b: string)
    ensures SameLower(a, b) ==> |a| == |b|
    ensures a == b ==> SameLower(a, b)
  {
    Lower(a) == Lower(b)
  }

  /** Equal after lower-casing means equal length: a name that only contains the other never matches. */
  lemma SameLowerExamples()
    ensures SameLower("Ana", "ANA")
    ensures !SameLower("JOAO SILVA", "joao")
  {
    assert Lower("Ana") == "ana" == Lower("ANA") by {
      assert LowerChar('A') == 'a' && LowerChar('N') == 'n';
    }
    assert |Lower("JOAO SILVA")| != |Lower("joao")|;
  }
}
