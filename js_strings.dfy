/**
 * The handful of JavaScript string built-ins the application relies on:
 * `trim`, `replace(/\D/g, '')`, `toLowerCase`, `includes`, and `replace`
 * with a literal pattern (first occurrence only).
 */
module JsStrings {
  import opened Numbers

  /**
   * The characters `String.prototype.trim` removes: the WhiteSpace and
   * LineTerminator code points of ECMAScript (tab, vertical tab, form feed,
   * the space separators of category Zs, the byte order mark, line feed,
   * carriage return, line and paragraph separators).
   */
  predicate IsJsWhitespace(c: char) {
    c == '\t' || c == '\n' || c == '\U{000B}' || c == '\U{000C}' || c == '\r' ||
    c == ' ' || c == '\U{00A0}' || c == '\U{1680}' || ('\U{2000}' <= c <= '\U{200A}') ||
    c == '\U{2028}' || c == '\U{2029}' || c == '\U{202F}' || c == '\U{205F}' ||
    c == '\U{3000}' || c == '\U{FEFF}'
  }

  /** The number of whitespace characters at the start of `s`. */
  function LeadingWhitespace(s: string): (n: nat)
    ensures n <= |s|
    ensures forall k :: 0 <= k < n ==> IsJsWhitespace(s[k])
    ensures n < |s| ==> !IsJsWhitespace(s[n])
  {
    if s == [] || !IsJsWhitespace(s[0]) then 0 else 1 + LeadingWhitespace(s[1..])
  }

  /** The number of whitespace characters at the end of `s`. */
  function TrailingWhitespace(s: string): (n: nat)
    ensures n <= |s|
    ensures forall k :: |s| - n <= k < |s| ==> IsJsWhitespace(s[k])
    ensures n < |s| ==> !IsJsWhitespace(s[|s| - n - 1])
  {
    if s == [] || !IsJsWhitespace(s[|s| - 1]) then 0
    else 1 + TrailingWhitespace(s[..|s| - 1])
  }

  /** `s.trim()`: the slice left once leading and trailing whitespace is cut. */
  function Trim(s: string): (r: string)
    ensures |r| <= |s|
    ensures r != [] ==> !IsJsWhitespace(r[0]) && !IsJsWhitespace(r[|r| - 1])
  {
    var t := s[LeadingWhitespace(s)..];
    t[..|t| - TrailingWhitespace(t)]
  }

  /**
   * Trim keeps a contiguous slice of its input, cuts only whitespace, and
   * leaves no whitespace at either end.
   */
  lemma TrimSlice(s: string)
    ensures exists i, j ::
              && 0 <= i <= j <= |s| && Trim(s) == s[i..j]
              && (forall k :: 0 <= k < i ==> IsJsWhitespace(s[k]))
              && (forall k :: j <= k < |s| ==> IsJsWhitespace(s[k]))
    ensures Trim(s) != [] ==> !IsJsWhitespace(Trim(s)[0]) && !IsJsWhitespace(Trim(s)[|Trim(s)| - 1])
  {
    var i := LeadingWhitespace(s);
    var t := s[i..];
    var j := i + |t| - TrailingWhitespace(t);
    assert Trim(s) == s[i..j];
    forall k | j <= k < |s| ensures IsJsWhitespace(s[k]) {
      assert s[k] == t[k - i];
    }
  }

  /** A field is blank after trimming exactly when it holds only whitespace. */
  lemma TrimEmptyIff(s: string)
    ensures Trim(s) == [] <==> forall k :: 0 <= k < |s| ==> IsJsWhitespace(s[k])
  {
    TrimSlice(s);
    var i := LeadingWhitespace(s);
    if forall k :: 0 <= k < |s| ==> IsJsWhitespace(s[k]) {
      assert i == |s|;
    } else {
      assert i < |s|;
      var t := s[i..];
      assert !IsJsWhitespace(t[0]);
      assert TrailingWhitespace(t) < |t|;
    }
  }

  lemma TrimIdempotent(s: string)
    ensures Trim(Trim(s)) == Trim(s)
  {
    TrimSlice(s);
    var t := Trim(s);
    if t != [] {
      assert LeadingWhitespace(t) == 0;
      assert TrailingWhitespace(t) == 0;
    }
  }

  /** `s.replace(/\D/g, '')`: the ASCII digits of `s`, in order. */
  function DigitsOnly(s: string): (r: string)
    ensures AllDigits(r) && |r| <= |s|
  {
    if s == [] then []
    else DigitsOnly(s[..|s| - 1]) + (if IsDigit(s[|s| - 1]) then [s[|s| - 1]] else [])
  }

  lemma {:induction false} DigitsOnlyAppend(a: string, b: string)
    ensures DigitsOnly(a + b) == DigitsOnly(a) + DigitsOnly(b)
    decreases |b|
  {
    if b == [] {
      assert a + b == a;
    } else {
      assert (a + b)[..|a + b| - 1] == a + b[..|b| - 1];
      DigitsOnlyAppend(a, b[..|b| - 1]);
    }
  }

  lemma {:induction false} DigitsOnlyOfWhitespace(s: string)
    requires forall k :: 0 <= k < |s| ==> IsJsWhitespace(s[k])
    ensures DigitsOnly(s) == []
    decreases |s|
  {
    if s != [] {
      DigitsOnlyOfWhitespace(s[..|s| - 1]);
    }
  }

  lemma {:induction false} DigitsOnlyOfDigits(s: string)
    requires AllDigits(s)
    ensures DigitsOnly(s) == s
    decreases |s|
  {
    if s != [] {
      DigitsOnlyOfDigits(s[..|s| - 1]);
    }
  }

  /** Trimming never changes which digits a field holds. */
  lemma DigitsOnlyOfTrim(s: string)
    ensures DigitsOnly(Trim(s)) == DigitsOnly(s)
  {
    TrimSlice(s);
    var i, j :| && 0 <= i <= j <= |s| && Trim(s) == s[i..j]
                && (forall k :: 0 <= k < i ==> IsJsWhitespace(s[k]))
                && (forall k :: j <= k < |s| ==> IsJsWhitespace(s[k]));
    DigitsOnlyOfSlice(s, i, j);
  }

  /** Cutting whitespace off both ends keeps the digits. */
  lemma DigitsOnlyOfSlice(s: string, i: nat, j: nat)
    requires i <= j <= |s|
    requires forall k :: 0 <= k < i ==> IsJsWhitespace(s[k])
    requires forall k :: j <= k < |s| ==> IsJsWhitespace(s[k])
    ensures DigitsOnly(s[i..j]) == DigitsOnly(s)
  {
    WhitespacePrefix(s, i);
    WhitespaceSuffix(s, j);
    SliceThree(s, i, j);
    DigitsOnlyOfPadded(s[..i], s[i..j], s[j..]);
  }

  lemma SliceThree(s: string, i: nat, j: nat)
    requires i <= j <= |s|
    ensures s == s[..i] + s[i..j] + s[j..]
  {
  }

  /** Whitespace around a text adds no digit. */
  lemma DigitsOnlyOfPadded(pre: string, mid: string, post: string)
    requires forall k :: 0 <= k < |pre| ==> IsJsWhitespace(pre[k])
    requires forall k :: 0 <= k < |post| ==> IsJsWhitespace(post[k])
    ensures DigitsOnly(pre + mid + post) == DigitsOnly(mid)
  {
    DigitsOnlyAppend(pre, mid);
    DigitsOnlyAppend(pre + mid, post);
    DigitsOnlyOfWhitespace(pre);
    DigitsOnlyOfWhitespace(post);
  }

  lemma WhitespacePrefix(s: string, i: nat)
    requires i <= |s| && forall k :: 0 <= k < i ==> IsJsWhitespace(s[k])
    ensures forall k :: 0 <= k < |s[..i]| ==> IsJsWhitespace(s[..i][k])
  {
  }

  lemma WhitespaceSuffix(s: string, j: nat)
    requires j <= |s| && forall k :: j <= k < |s| ==> IsJsWhitespace(s[k])
    ensures forall k :: 0 <= k < |s[j..]| ==> IsJsWhitespace(s[j..][k])
  {
    forall k | 0 <= k < |s[j..]| ensures IsJsWhitespace(s[j..][k]) {
      assert s[j..][k] == s[j + k];
    }
  }

  /**
   * `toLowerCase` on the letters this model covers: the ASCII capitals and
   * the Latin-1 capitals U+00C0..U+00DE except the multiplication sign.
   */
  function LowerChar(c: char): char {
    if 'A' <= c <= 'Z' || ('\U{00C0}' <= c <= '\U{00DE}' && c != '\U{00D7}')
    then (c as int + 32) as char
    else c
  }

  function Lower(s: string): (r: string)
    ensures |r| == |s| && forall i :: 0 <= i < |s| ==> r[i] == LowerChar(s[i])
  {
    seq(|s|, i requires 0 <= i < |s| => LowerChar(s[i]))
  }

  /** Lower-casing twice is lower-casing once: no lowered letter is a capital. */
  lemma LowerIdempotent(s: string)
    ensures Lower(Lower(s)) == Lower(s)
  {
  }

  lemma LowerAppend(a: string, b: string)
    ensures Lower(a + b) == Lower(a) + Lower(b)
  {
  }

  /** `pattern` occurs in `text` starting at offset `k`. */
  predicate OccursAt(text: string, pattern: string, k: int) {
    0 <= k && k + |pattern| <= |text| && text[k..k + |pattern|] == pattern
  }

  /** `text.includes(pattern)`: whether `pattern` occurs in `text` at some offset. */
  function Includes(text: string, pattern: string): (r: bool)
    ensures r <==> exists k :: OccursAt(text, pattern, k)
    decreases |text|
  {
    if |pattern| > |text| then false
    else if text[..|pattern|] == pattern then assert OccursAt(text, pattern, 0); true
    else
      var rest := Includes(text[1..], pattern);
      assert rest ==> exists k :: OccursAt(text, pattern, k) by {
        if rest {
          var k :| OccursAt(text[1..], pattern, k);
          assert text[k + 1..k + 1 + |pattern|] == text[1..][k..k + |pattern|];
          assert OccursAt(text, pattern, k + 1);
        }
      }
      assert (exists k :: OccursAt(text, pattern, k)) ==> rest by {
        if exists k :: OccursAt(text, pattern, k) {
          var k :| OccursAt(text, pattern, k);
          assert k != 0;
          assert text[1..][k - 1..k - 1 + |pattern|] == text[k..k + |pattern|];
          assert OccursAt(text[1..], pattern, k - 1);
        }
      }
      rest
  }

  /** An occurrence inside a piece is an occurrence inside any text that contains the piece. */
  lemma IncludesWithin(before: string, middle: string, after: string, pattern: string)
    requires Includes(middle, pattern)
    ensures Includes(before + middle + after, pattern)
  {
    var k :| OccursAt(middle, pattern, k);
    var text := before + middle + after;
    assert text[|before| + k..|before| + k + |pattern|] == middle[k..k + |pattern|];
    assert OccursAt(text, pattern, |before| + k);
  }

  /** `s.replace(pattern, replacement)` for a literal pattern: only the first occurrence is replaced. */
  function ReplaceFirst(s: string, pattern: string, replacement: string): (r: string)
    decreases |s|
  {
    if |pattern| <= |s| && s[..|pattern|] == pattern then replacement + s[|pattern|..]
    else if s == [] then s
    else [s[0]] + ReplaceFirst(s[1..], pattern, replacement)
  }

  /** Removing a prefix that a text starts with gives back the rest of the text. */
  lemma ReplaceFirstPrefix(prefix: string, rest: string)
    ensures ReplaceFirst(prefix + rest, prefix, "") == rest
  {
    var s := prefix + rest;
    assert s[..|prefix|] == prefix;
    assert s[|prefix|..] == rest;
  }
}
