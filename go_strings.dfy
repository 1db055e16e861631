/**
 * The functions of Go's `strings` package that the audio loader and the
 * whisper client call: `ToLower`, `Contains`, `TrimSpace` and `Join`.
 * Strings are sequences of characters.  Case mapping covers every character
 * whose lower-case form is ASCII: the ASCII capitals, U+0130 (capital I with
 * dot above) and U+212A (Kelvin sign).
 */
module GoStrings {

  /**
   * The lower-case form of one character, as `unicode.ToLower` gives it for
   * the characters whose lower case is ASCII: 'A'..'Z' map to 'a'..'z',
   * U+0130 maps to 'i' and U+212A maps to 'k'.
   */
  function LowerChar(c: char): char {
    if 'A' <= c <= 'Z' then (c as int + 32) as char
    else if c == '\U{130}' then 'i'
    else if c == '\U{212A}' then 'k'
    else c
  }

  /** A character that lower-casing changes: exactly those LowerChar maps. */
  predicate IsUpper(c: char) {
    'A' <= c <= 'Z' || c == '\U{130}' || c == '\U{212A}'
  }

  /** `strings.ToLower`: every character mapped by LowerChar, in place. */
  function ToLower(s: string): (r: string)
    ensures |r| == |s|
    ensures forall i :: 0 <= i < |s| ==> r[i] == LowerChar(s[i])
  {
    seq(|s|, i requires 0 <= i < |s| => LowerChar(s[i]))
  }

  /** IsUpper names exactly the characters that lower-casing changes. */
  lemma IsUpperIff(c: char)
    ensures IsUpper(c) <==> LowerChar(c) != c
  {
  }

  /** A lower-cased string holds no upper-case letter. */
  lemma ToLowerHasNoUpper(s: string)
    ensures forall i :: 0 <= i < |s| ==> !IsUpper(ToLower(s)[i])
  {
  }

  /** Lower-casing twice is lower-casing once. */
  lemma ToLowerIdempotent(s: string)
    ensures ToLower(ToLower(s)) == ToLower(s)
  {
    var once := ToLower(s);
    assert forall i :: 0 <= i < |s| ==> ToLower(once)[i] == once[i];
  }

  /** A string without upper-case letters is its own lower-case form. */
  lemma ToLowerOfLower(s: string)
    requires forall i :: 0 <= i < |s| ==> !IsUpper(s[i])
    ensures ToLower(s) == s
  {
  }

  /** Lower-casing works character by character, so it distributes over concatenation. */
  lemma ToLowerConcat(a: string, b: string)
    ensures ToLower(a + b) == ToLower(a) + ToLower(b)
  {
    assert forall i :: 0 <= i < |a| ==> ToLower(a + b)[i] == (ToLower(a) + ToLower(b))[i];
    assert forall i :: |a| <= i < |a| + |b| ==> ToLower(a + b)[i] == (ToLower(a) + ToLower(b))[i];
  }

  /** Only '.' lower-cases to '.', and only '/' lower-cases to '/'. */
  lemma LowerCharFixes(c: char)
    ensures LowerChar(c) == '.' <==> c == '.'
    ensures LowerChar(c) == '/' <==> c == '/'
  {
  }

  /** `strings.Contains(s, sub)`: `sub` occurs somewhere in `s` (the empty string always does). */
  predicate Contains(s: string, sub: string)
    ensures Contains(s, sub) ==> |sub| <= |s|
    ensures |sub| <= |s| && s[..|sub|] == sub ==> Contains(s, sub)
    ensures |s| > 0 && Contains(s[1..], sub) ==> Contains(s, sub)
    decreases |s|
  {
    |sub| <= |s| && (s[..|sub|] == sub || Contains(s[1..], sub))
  }

  /** `sub` occurs in `s` starting at position `i`. */
  predicate OccursAt(s: string, sub: string, i: nat) {
    i + |sub| <= |s| && s[i..i + |sub|] == sub
  }

  /** An occurrence in the tail is an occurrence one position later in the whole. */
  lemma OccursShift(s: string, sub: string, i: nat)
    requires |s| > 0
    ensures OccursAt(s[1..], sub, i) <==> OccursAt(s, sub, i + 1)
  {
    if i + 1 + |sub| <= |s| {
      assert s[1..][i..i + |sub|] == s[i + 1..i + 1 + |sub|];
    }
  }

  /** Contains is exactly "there is a position where `sub` starts". */
  lemma {:induction false} ContainsIff(s: string, sub: string)
    ensures Contains(s, sub) <==> exists i: nat :: OccursAt(s, sub, i)
    decreases |s|
  {
    if |sub| <= |s| {
      if s[..|sub|] == sub {
        assert OccursAt(s, sub, 0);
      } else {
        ContainsIff(s[1..], sub);
        if Contains(s[1..], sub) {
          var i: nat :| OccursAt(s[1..], sub, i);
          OccursShift(s, sub, i);
        } else if exists i: nat :: OccursAt(s, sub, i) {
          var i: nat :| OccursAt(s, sub, i);
          assert i != 0;
          OccursShift(s, sub, i - 1);
        }
      }
    }
  }

  /** An occurrence at a known position proves Contains. */
  lemma ContainsAt(s: string, sub: string, i: nat)
    requires OccursAt(s, sub, i)
    ensures Contains(s, sub)
  {
    ContainsIff(s, sub);
  }

  /** The whitespace of Go's `unicode.IsSpace`. */
  predicate IsSpace(c: char) {
    c == ' ' || c == '\t' || c == '\n' || c == '\r' || c == '\U{B}' || c == '\U{C}'
    || c == '\U{85}' || c == '\U{A0}' || c == '\U{1680}' || ('\U{2000}' <= c <= '\U{200A}')
    || c == '\U{2028}' || c == '\U{2029}' || c == '\U{202F}' || c == '\U{205F}' || c == '\U{3000}'
  }

  /** The first index at or after `i` that does not hold whitespace (or |s|). */
  function LeadingSpaceEnd(s: string, i: nat): (start: nat)
    requires i <= |s|
    ensures i <= start <= |s|
    ensures forall k :: i <= k < start ==> IsSpace(s[k])
    ensures start < |s| ==> !IsSpace(s[start])
    decreases |s| - i
  {
    if i < |s| && IsSpace(s[i]) then LeadingSpaceEnd(s, i + 1) else i
  }

  /**
   * Scanning back from `j` but not below `lo`: the end of the last character
   * that is not whitespace (or `lo`).
   */
  function TrailingSpaceStart(s: string, lo: nat, j: nat): (stop: nat)
    requires lo <= j <= |s|
    ensures lo <= stop <= j
    ensures forall k :: stop <= k < j ==> IsSpace(s[k])
    ensures stop > lo ==> !IsSpace(s[stop - 1])
    decreases j - lo
  {
    if j > lo && IsSpace(s[j - 1]) then TrailingSpaceStart(s, lo, j - 1) else j
  }

  /**
   * `strings.TrimSpace`: the slice of `s` between its leading and its
   * trailing whitespace.
   */
  function TrimSpace(s: string): (r: string)
    ensures |r| <= |s|
    ensures r != [] ==> !IsSpace(r[0]) && !IsSpace(r[|r| - 1])
  {
    var i := LeadingSpaceEnd(s, 0);
    s[i..TrailingSpaceStart(s, i, |s|)]
  }

  /**
   * TrimSpace keeps the slice s[i..j] of `s`, drops only whitespace around it,
   * and the slice neither starts nor ends with whitespace.
   */
  lemma TrimSpaceSlice(s: string) returns (i: nat, j: nat)
    ensures i <= j <= |s| && TrimSpace(s) == s[i..j]
    ensures forall k :: 0 <= k < i ==> IsSpace(s[k])
    ensures forall k :: j <= k < |s| ==> IsSpace(s[k])
    ensures i < j ==> !IsSpace(s[i]) && !IsSpace(s[j - 1])
  {
    i := LeadingSpaceEnd(s, 0);
    j := TrailingSpaceStart(s, i, |s|);
  }

  /** `strings.Join`: the parts in order, with `sep` between neighbours. */
  function Join(parts: seq<string>, sep: string): (r: string)
    ensures parts == [] ==> r == ""
    ensures parts != [] ==> |parts[0]| <= |r| && |parts[|parts| - 1]| <= |r|
  {
    if parts == [] then ""
    else if |parts| == 1 then parts[0]
    else parts[0] + sep + Join(parts[1..], sep)
  }

  /** The joined text starts with the first part and ends with the last. */
  lemma {:induction false} JoinEnds(parts: seq<string>, sep: string)
    requires parts != []
    ensures Join(parts, sep)[..|parts[0]|] == parts[0]
    ensures var r, last := Join(parts, sep), parts[|parts| - 1];
            r[|r| - |last|..] == last
  {
    if |parts| > 1 {
      JoinEnds(parts[1..], sep);
      var rest := Join(parts[1..], sep);
      assert Join(parts, sep) == (parts[0] + sep) + rest;
    }
  }

  /** Joining one more part appends the separator and that part. */
  lemma {:induction false} JoinSnoc(parts: seq<string>, p: string, sep: string)
    ensures Join(parts + [p], sep) == if parts == [] then p else Join(parts, sep) + sep + p
  {
    if parts == [] {
      assert parts + [p] == [p];
    } else {
      JoinConcat(parts, [p], sep);
    }
  }

  /** Joining a first part onto a non-empty rest puts `sep` between them. */
  lemma JoinCons(p: string, rest: seq<string>, sep: string)
    requires rest != []
    ensures Join([p] + rest, sep) == p + sep + Join(rest, sep)
  {
    assert ([p] + rest)[1..] == rest;
  }

  /** Regrouping around two separators. */
  lemma RegroupSeparators(p: string, sep: string, x: string, y: string)
    ensures p + sep + (x + sep + y) == (p + sep + x) + sep + y
  {
  }

  /** Joining splits at any boundary: earlier parts come first in the result. */
  lemma {:induction false} JoinConcat(a: seq<string>, b: seq<string>, sep: string)
    requires a != [] && b != []
    ensures Join(a + b, sep) == Join(a, sep) + sep + Join(b, sep)
  {
    if |a| == 1 {
      assert a + b == [a[0]] + b;
      JoinCons(a[0], b, sep);
    } else {
      var rest := a[1..];
      assert a == [a[0]] + rest;
      assert a + b == [a[0]] + (rest + b);
      JoinConcat(rest, b, sep);
      JoinCons(a[0], rest + b, sep);
      JoinCons(a[0], rest, sep);
      RegroupSeparators(a[0], sep, Join(rest, sep), Join(b, sep));
    }
  }

  function TotalLength(parts: seq<string>): nat {
    if parts == [] then 0 else |parts[0]| + TotalLength(parts[1..])
  }

  /** The joined length: every part plus one separator between each neighbour. */
  lemma {:induction false} JoinLength(parts: seq<string>, sep: string)
    requires parts != []
    ensures |Join(parts, sep)| == TotalLength(parts) + (|parts| - 1) * |sep|
  {
    if |parts| > 1 {
      JoinLength(parts[1..], sep);
    }
  }

  /** With a non-empty separator, the join is empty only for no parts or one empty part. */
  lemma JoinEmptyIff(parts: seq<string>, sep: string)
    requires sep != ""
    ensures Join(parts, sep) == "" <==> parts == [] || parts == [""]
  {
    if parts != [] {
      JoinLength(parts, sep);
      if |parts| == 1 && Join(parts, sep) == "" {
        assert parts == [parts[0]];
      }
    }
  }
}
