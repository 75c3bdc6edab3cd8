/** Text primitives the JavaScript code relies on: `toLowerCase`, `trim`,
    `includes` and `Array.prototype.join`, over `string` = `seq<char>`. */
module Text {

  // ---------------------------------------------------------------------
  // Lower-casing
  // ---------------------------------------------------------------------

  /** The upper-case letters whose lower-case form the model knows: ASCII A–Z
      and the Latin-1 capitals À–Þ (except the multiplication sign ×), which
      cover every accented letter of Portuguese (Ç, Ã, Í, Ó, ...). */
  predicate IsUpper(c: char) {
    ('A' <= c <= 'Z') || ('\U{00C0}' <= c <= '\U{00DE}' && c != '\U{00D7}')
  }

  /** `toLowerCase` on one character: every known capital moves 32 code points
      down to its small letter; every other character is left alone. */
  function LowerChar(c: char): (r: char)
    ensures !IsUpper(r)
    ensures !IsUpper(c) ==> r == c
    ensures IsUpper(c) ==> r as int == c as int + 32
  {
    if IsUpper(c) then (c as int + 32) as char else c
  }

  /** `toLowerCase` on a string: character by character. */
  function Lower(s: string): (r: string)
    ensures |r| == |s|
    ensures forall i :: 0 <= i < |s| ==> r[i] == LowerChar(s[i])
  {
    seq(|s|, i requires 0 <= i < |s| => LowerChar(s[i]))
  }

  /** A string with no capital the model knows. */
  predicate IsLowerCase(s: string) {
    forall i :: 0 <= i < |s| ==> !IsUpper(s[i])
  }

  lemma LowerIsLowerCase(s: string)
    ensures IsLowerCase(Lower(s))
  {
  }

  /** Lower-casing leaves a lower-case string as it is; in particular it is
      idempotent. */
  lemma LowerOfLowerCase(s: string)
    requires IsLowerCase(s)
    ensures Lower(s) == s
  {
  }

  /** Lower-casing distributes over concatenation. */
  lemma LowerConcat(a: string, b: string)
    ensures Lower(a + b) == Lower(a) + Lower(b)
  {
  }

  // ---------------------------------------------------------------------
  // Substring search: `text.includes(key)`
  // ---------------------------------------------------------------------

  /** `text.includes(key)`: `key` occurs in `text` at some position. */
  predicate Contains(text: string, key: string)
    decreases |text|
  {
    key <= text || (|text| > 0 && Contains(text[1..], key))
  }

  /** An occurrence at position `i` makes `Contains` true. */
  lemma {:induction false} ContainsFromSlice(text: string, i: nat, key: string)
    requires i + |key| <= |text| && text[i..i + |key|] == key
    ensures Contains(text, key)
    decreases i
  {
    if i == 0 {
      assert key <= text;
    } else {
      assert text[1..][i - 1..i - 1 + |key|] == text[i..i + |key|];
      ContainsFromSlice(text[1..], i - 1, key);
    }
  }

  /** `Contains` is true only because of an occurrence at some position. */
  lemma {:induction false} SliceFromContains(text: string, key: string) returns (i: nat)
    requires Contains(text, key)
    ensures i + |key| <= |text| && text[i..i + |key|] == key
    decreases |text|
  {
    if key <= text {
      i := 0;
    } else {
      var j := SliceFromContains(text[1..], key);
      assert text[1..][j..j + |key|] == text[j + 1..j + 1 + |key|];
      i := j + 1;
    }
  }

  /** An occurrence in a part is an occurrence in the whole. */
  lemma ContainsInConcat(a: string, b: string, key: string)
    requires Contains(a, key) || Contains(b, key)
    ensures Contains(a + b, key)
  {
    if Contains(a, key) {
      var i := SliceFromContains(a, key);
      assert (a + b)[i..i + |key|] == a[i..i + |key|];
      ContainsFromSlice(a + b, i, key);
    } else {
      var i := SliceFromContains(b, key);
      assert (a + b)[|a| + i..|a| + i + |key|] == b[i..i + |key|];
      ContainsFromSlice(a + b, |a| + i, key);
    }
  }

  /** An occurrence of a string that contains `key` is an occurrence of it. */
  lemma ContainsTransitive(text: string, mid: string, key: string)
    requires Contains(text, mid) && Contains(mid, key)
    ensures Contains(text, key)
  {
    var i := SliceFromContains(text, mid);
    var j := SliceFromContains(mid, key);
    forall k | 0 <= k < |key| ensures text[i + j + k] == key[k] {
      assert text[i + j + k] == text[i..i + |mid|][j + k] == mid[j + k];
      assert mid[j + k] == mid[j..j + |key|][k];
    }
    assert text[i + j..i + j + |key|] == key;
    ContainsFromSlice(text, i + j, key);
  }

  /** Lower-casing the text and the key preserves an occurrence, which is
      what makes a search on lower-cased text case-insensitive. */
  lemma ContainsLower(text: string, key: string)
    requires Contains(text, key)
    ensures Contains(Lower(text), Lower(key))
  {
    var i := SliceFromContains(text, key);
    assert Lower(text)[i..i + |key|] == Lower(key);
    ContainsFromSlice(Lower(text), i, Lower(key));
  }

  // ---------------------------------------------------------------------
  // Trimming: `s.trim()`
  // ---------------------------------------------------------------------

  /** The characters `trim` removes: ECMAScript's WhiteSpace (tab, vertical
      tab, form feed, space, no-break space, the byte order mark and the
      Unicode space separators) and LineTerminator (LF, CR, LS, PS). */
  predicate IsWhitespace(c: char) {
    || c == '\t' || c == '\n' || c == '\U{000B}' || c == '\U{000C}' || c == '\r'
    || c == ' ' || c == '\U{00A0}' || c == '\U{1680}'
    || ('\U{2000}' <= c <= '\U{200A}')
    || c == '\U{2028}' || c == '\U{2029}' || c == '\U{202F}' || c == '\U{205F}'
    || c == '\U{3000}' || c == '\U{FEFF}'
  }

  /** Drops the leading whitespace. */
  function TrimStart(s: string): (r: string)
    ensures |r| <= |s|
    decreases |s|
  {
    if |s| > 0 && IsWhitespace(s[0]) then TrimStart(s[1..]) else s
  }

  /** Drops the trailing whitespace. */
  function TrimEnd(s: string): (r: string)
    ensures r <= s
    decreases |s|
  {
    if |s| > 0 && IsWhitespace(s[|s| - 1]) then TrimEnd(s[..|s| - 1]) else s
  }

  /** `s.trim()`. */
  function Trim(s: string): string {
    TrimEnd(TrimStart(s))
  }

  /** `Trim(s)` is the slice `s[i..j]` that remains once the whitespace runs
      `s[..i]` and `s[j..]` are cut off, and it neither starts nor ends with
      whitespace: the slice is determined uniquely. */
  lemma TrimIsMaximalSlice(s: string) returns (i: nat, j: nat)
    ensures i <= j <= |s| && Trim(s) == s[i..j]
    ensures forall k :: 0 <= k < i ==> IsWhitespace(s[k])
    ensures forall k :: j <= k < |s| ==> IsWhitespace(s[k])
    ensures i < j ==> !IsWhitespace(s[i]) && !IsWhitespace(s[j - 1])
  {
    i := TrimStartCut(s);
    var t := s[i..];
    var e := TrimEndCut(t);
    j := i + e;
    assert Trim(s) == t[..e] == s[i..j];
    forall k | j <= k < |s| ensures IsWhitespace(s[k]) {
      assert s[k] == t[k - i];
    }
    if i < j {
      assert s[i] == t[0];
      assert s[j - 1] == t[e - 1];
    }
  }

  lemma {:induction false} TrimStartCut(s: string) returns (i: nat)
    ensures i <= |s| && TrimStart(s) == s[i..]
    ensures forall k :: 0 <= k < i ==> IsWhitespace(s[k])
    ensures i < |s| ==> !IsWhitespace(s[i])
    decreases |s|
  {
    if |s| > 0 && IsWhitespace(s[0]) {
      var i' := TrimStartCut(s[1..]);
      i := i' + 1;
      assert s[1..][i'..] == s[i..];
      forall k | 0 <= k < i ensures IsWhitespace(s[k]) {
        if k > 0 { assert s[k] == s[1..][k - 1]; }
      }
    } else {
      i := 0;
    }
  }

  lemma {:induction false} TrimEndCut(s: string) returns (j: nat)
    ensures j <= |s| && TrimEnd(s) == s[..j]
    ensures forall k :: j <= k < |s| ==> IsWhitespace(s[k])
    ensures 0 < j ==> !IsWhitespace(s[j - 1])
    decreases |s|
  {
    if |s| > 0 && IsWhitespace(s[|s| - 1]) {
      var p := s[..|s| - 1];
      j := TrimEndCut(p);
      assert p[..j] == s[..j];
      forall k | j <= k < |s| ensures IsWhitespace(s[k]) {
        if k < |s| - 1 { assert s[k] == p[k]; }
      }
    } else {
      j := |s|;
      assert s[..j] == s;
    }
  }

  /** Trimming a trimmed string changes nothing. */
  lemma TrimIdempotent(s: string)
    ensures Trim(Trim(s)) == Trim(s)
  {
    var i, j := TrimIsMaximalSlice(s);
    var t := Trim(s);
    if |t| > 0 {
      assert t[0] == s[i] && t[|t| - 1] == s[j - 1];
    }
    assert TrimStart(t) == t;
  }

  // ---------------------------------------------------------------------
  // Joining: `parts.join(sep)`
  // ---------------------------------------------------------------------

  /** `parts.join(sep)`: the parts in order with `sep` between neighbours. */
  function Join(parts: seq<string>, sep: string): (r: string)
    ensures |parts| == 1 ==> r == parts[0]
  {
    if |parts| == 0 then ""
    else if |parts| == 1 then parts[0]
    else parts[0] + sep + Join(parts[1..], sep)
  }

  /** What occurs in one part occurs in the joined string. */
  lemma {:induction false} ContainsInJoin(parts: seq<string>, sep: string, i: nat, key: string)
    requires i < |parts| && Contains(parts[i], key)
    ensures Contains(Join(parts, sep), key)
    decreases i
  {
    if |parts| > 1 {
      if i == 0 {
        ContainsInConcat(parts[0], sep, key);
        ContainsInConcat(parts[0] + sep, Join(parts[1..], sep), key);
      } else {
        ContainsInJoin(parts[1..], sep, i - 1, key);
        ContainsInConcat(parts[0] + sep, Join(parts[1..], sep), key);
      }
    }
  }
}
