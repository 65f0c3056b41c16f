/** String operations used by the search box and the form sanitisers:
    `toLowerCase`, `includes`, the regular expressions `^\d*$` and `^\d+$`,
    and `replace(/[^0-9]/g, '')`. */
module Text {
  import Seqs

  /** The lower-case form of one character: ASCII and Latin-1 capitals
      (which cover Spanish: Á, É, Í, Ñ, Ó, Ú, Ü) map to their small letters. */
  function LowerChar(c: char): (r: char)
    ensures 'A' <= c <= 'Z' ==> r as int == c as int + 32 && 'a' <= r <= 'z'
    ensures '\U{C0}' <= c <= '\U{DE}' && c != '\U{D7}' ==> r as int == c as int + 32 && '\U{E0}' <= r <= '\U{FE}'
    ensures !('A' <= c <= 'Z') && !('\U{C0}' <= c <= '\U{DE}' && c != '\U{D7}') ==> r == c
  {
    if 'A' <= c <= 'Z' || ('\U{C0}' <= c <= '\U{DE}' && c != '\U{D7}') then (c as int + 32) as char
    else c
  }

  /** `s.toLowerCase()`, character by character. */
  function ToLower(s: string): (r: string)
    ensures |r| == |s|
    ensures forall i :: 0 <= i < |s| ==> r[i] == LowerChar(s[i])
  {
    seq(|s|, i requires 0 <= i < |s| => LowerChar(s[i]))
  }

  /** Lower-casing twice is lower-casing once: no small letter is a capital. */
  lemma ToLowerIdempotent(s: string)
    ensures ToLower(ToLower(s)) == ToLower(s)
  {
    forall i | 0 <= i < |s|
      ensures LowerChar(LowerChar(s[i])) == LowerChar(s[i])
    {
      var c := s[i];
      if 'A' <= c <= 'Z' || ('\U{C0}' <= c <= '\U{DE}' && c != '\U{D7}') {
        assert LowerChar(c) as int == c as int + 32;
      }
    }
  }

  /** `prefix` is an initial segment of `s`. */
  predicate StartsWith(s: string, prefix: string) {
    |prefix| <= |s| && s[..|prefix|] == prefix
  }

  /** `s.includes(sub)`, scanning the start positions left to right. */
  predicate Contains(s: string, sub: string): (r: bool)
    ensures r ==> |sub| <= |s|
    ensures StartsWith(s, sub) ==> r
    decreases |s|
  {
    StartsWith(s, sub) || (|s| > 0 && Contains(s[1..], sub))
  }

  /** `sub` occurs in `s` starting at position `i`. */
  predicate OccursAt(s: string, sub: string, i: int) {
    0 <= i && i + |sub| <= |s| && s[i..i + |sub|] == sub
  }

  /** `includes` holds exactly when `sub` occurs at some position of `s`. */
  lemma {:induction false} ContainsAt(s: string, sub: string)
    ensures Contains(s, sub) <==> exists i :: OccursAt(s, sub, i)
    decreases |s|
  {
    if Contains(s, sub) {
      if StartsWith(s, sub) {
        assert OccursAt(s, sub, 0);
      } else {
        ContainsAt(s[1..], sub);
        var i :| OccursAt(s[1..], sub, i);
        assert s[i + 1..i + 1 + |sub|] == s[1..][i..i + |sub|];
        assert OccursAt(s, sub, i + 1);
      }
    }
    if exists i :: OccursAt(s, sub, i) {
      var i :| OccursAt(s, sub, i);
      if i == 0 {
        assert StartsWith(s, sub);
      } else {
        assert s[1..][i - 1..i - 1 + |sub|] == s[i..i + |sub|];
        assert OccursAt(s[1..], sub, i - 1);
        ContainsAt(s[1..], sub);
      }
    }
  }

  /** Every string includes the empty string. */
  lemma ContainsEmpty(s: string)
    ensures Contains(s, "")
  {
    assert StartsWith(s, "");
  }

  /** An ASCII decimal digit, what `\d` and `[0-9]` match. */
  predicate IsDigit(c: char) {
    '0' <= c <= '9'
  }

  /** `/^\d*$/.test(s)`, matched as the pattern reads: empty, or a digit followed by
      `\d*`. It holds exactly when every character is a digit. */
  predicate AllDigits(s: string): (r: bool)
    ensures r <==> forall i :: 0 <= i < |s| ==> IsDigit(s[i])
  {
    s == [] || (IsDigit(s[0]) && AllDigits(s[1..]))
  }

  /** `/^\d+$/.test(s)`, matched as the pattern reads: a digit followed by `\d*`. It
      differs from `^\d*$` only on the empty string. */
  predicate DigitsOnly(s: string): (r: bool)
    ensures r <==> s != [] && AllDigits(s)
  {
    s != [] && IsDigit(s[0]) && AllDigits(s[1..])
  }

  /** `s.replace(/[^0-9]/g, '')`: the digits of `s`, in order. */
  function StripNonDigits(s: string): (r: string)
    ensures AllDigits(r)
    ensures |r| <= |s|
    ensures forall i :: 0 <= i < |s| && IsDigit(s[i]) ==> s[i] in r
  {
    Seqs.Filter(s, IsDigit)
  }

  /** A string that is already all digits passes through unchanged. */
  lemma StripAllDigits(s: string)
    requires AllDigits(s)
    ensures StripNonDigits(s) == s
  {
    Seqs.FilterAll(s, IsDigit);
  }

  /** Sanitising twice is sanitising once. */
  lemma StripIdempotent(s: string)
    ensures StripNonDigits(StripNonDigits(s)) == StripNonDigits(s)
  {
    Seqs.FilterIdempotent(s, IsDigit);
  }

  /** The kept digits appear in the order they had in the input. */
  lemma StripKeepsOrder(s: string)
    ensures Seqs.IsSubseq(StripNonDigits(s), s)
  {
    Seqs.FilterIsSubseq(s, IsDigit);
  }

  /** Sanitising a pasted concatenation sanitises each part. */
  lemma StripAppend(a: string, b: string)
    ensures StripNonDigits(a + b) == StripNonDigits(a) + StripNonDigits(b)
  {
    Seqs.FilterAppend(a, b, IsDigit);
  }

  /** A sanitised value passes `^\d+$` exactly when the raw input held a digit. */
  lemma StripPassesCheck(s: string)
    ensures DigitsOnly(StripNonDigits(s)) <==> exists i :: 0 <= i < |s| && IsDigit(s[i])
  {
    if exists i :: 0 <= i < |s| && IsDigit(s[i]) {
      var i :| 0 <= i < |s| && IsDigit(s[i]);
      assert s[i] in StripNonDigits(s);
    } else {
      Seqs.FilterNone(s, IsDigit);
    }
  }
}
