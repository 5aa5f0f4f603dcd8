/** The JavaScript string operations the handler and the schema rely on:
    `trim()` (both String.prototype.trim and the validator's `trim()`
    sanitizer strip the same `\s` character class), ASCII `toLowerCase()`,
    and the truthiness of an optional string. */
module JsText {
  import opened Wrappers

  /** The characters JavaScript's `\s` class and `String.prototype.trim`
      treat as white space: the ECMAScript WhiteSpace and LineTerminator
      code points. */
  const WhitespaceChars: set<char> := {
    '\t', '\n', '\U{000B}', '\U{000C}', '\r', ' ', '\U{00A0}', '\U{1680}',
    '\U{2000}', '\U{2001}', '\U{2002}', '\U{2003}', '\U{2004}', '\U{2005}',
    '\U{2006}', '\U{2007}', '\U{2008}', '\U{2009}', '\U{200A}',
    '\U{2028}', '\U{2029}', '\U{202F}', '\U{205F}', '\U{3000}', '\U{FEFF}'
  }

  predicate IsWhitespace(c: char) {
    c in WhitespaceChars
  }

  /** Every character of `s` is white space (vacuously so for ""). */
  predicate AllWhitespace(s: string) {
    forall i :: 0 <= i < |s| ==> IsWhitespace(s[i])
  }

  /** Neither end of `s` is white space. */
  predicate IsTrimmed(s: string) {
    s == [] || (!IsWhitespace(s[0]) && !IsWhitespace(s[|s| - 1]))
  }

  /** The first index at or after `i` that is not white space, or `|s|`. */
  function SkipLeading(s: string, i: nat): (n: nat)
    requires i <= |s|
    ensures i <= n <= |s|
    ensures forall k :: i <= k < n ==> IsWhitespace(s[k])
    ensures n == |s| || !IsWhitespace(s[n])
    decreases |s| - i
  {
    if i < |s| && IsWhitespace(s[i]) then SkipLeading(s, i + 1) else i
  }

  /** One past the last index before `j` that is not white space, or 0. */
  function SkipTrailing(s: string, j: nat): (m: nat)
    requires j <= |s|
    ensures m <= j
    ensures forall k :: m <= k < j ==> IsWhitespace(s[k])
    ensures m == 0 || !IsWhitespace(s[m - 1])
  {
    if j > 0 && IsWhitespace(s[j - 1]) then SkipTrailing(s, j - 1) else j
  }

  /** Where the text of `s` starts once its leading white space is cut. */
  function Lead(s: string): nat {
    SkipLeading(s, 0)
  }

  /** Where the text of `s` ends once its trailing white space is cut. */
  function End(s: string): nat {
    SkipTrailing(s, |s|)
  }

  /** Unless `s` is all white space, its text ends after it starts. */
  lemma LeadBeforeEnd(s: string)
    requires Lead(s) < |s|
    ensures Lead(s) < End(s)
  {
    assert !IsWhitespace(s[Lead(s)]);
  }

  /** JavaScript's `s.trim()`: the result neither starts nor ends with white
      space, and is empty exactly when `s` is all white space. */
  function Trim(s: string): (r: string)
    ensures |r| <= |s|
    ensures IsTrimmed(r)
    ensures r == [] <==> AllWhitespace(s)
  {
    if Lead(s) == |s| then []
    else
      LeadBeforeEnd(s);
      assert !IsWhitespace(s[Lead(s)]) && !IsWhitespace(s[End(s) - 1]);
      s[Lead(s)..End(s)]
  }

  /** `t` is the slice of `s` starting at `i` that is left once the white
      space on both sides is cut off: everything before it and after it is
      white space and `t` itself neither starts nor ends with white space. */
  ghost predicate TrimmedSliceAt(s: string, t: string, i: int) {
    && 0 <= i && i + |t| <= |s|
    && t == s[i..i + |t|]
    && (forall k :: 0 <= k < i ==> IsWhitespace(s[k]))
    && (forall k :: i + |t| <= k < |s| ==> IsWhitespace(s[k]))
    && IsTrimmed(t)
  }

  /** What `Trim` returns is the trimmed slice found after the leading
      white space. */
  lemma TrimSlice(s: string)
    ensures TrimmedSliceAt(s, Trim(s), Lead(s))
  {
    if Lead(s) < |s| {
      LeadBeforeEnd(s);
    }
  }

  /** Two trimmed slices of the same string start at the same place when
      neither is empty. */
  lemma SameStart(s: string, t: string, i: int, u: string, j: int)
    requires TrimmedSliceAt(s, t, i) && TrimmedSliceAt(s, u, j)
    requires t != [] && u != []
    ensures i == j
  {
    assert !IsWhitespace(s[i]) && !IsWhitespace(s[j]) by {
      assert s[i] == t[0] && s[j] == u[0];
    }
  }

  /** Two non-empty trimmed slices starting at the same place have the
      same length. */
  lemma SameLength(s: string, t: string, u: string, i: int)
    requires TrimmedSliceAt(s, t, i) && TrimmedSliceAt(s, u, i)
    requires t != [] && u != []
    ensures |t| == |u|
  {
    assert !IsWhitespace(s[i + |t| - 1]) && !IsWhitespace(s[i + |u| - 1]) by {
      assert s[i + |t| - 1] == t[|t| - 1] && s[i + |u| - 1] == u[|u| - 1];
    }
  }

  /** An empty trimmed slice means the whole string is white space. */
  lemma EmptySlice(s: string, t: string, i: int)
    requires TrimmedSliceAt(s, t, i) && t == []
    ensures AllWhitespace(s)
  {
    forall k | 0 <= k < |s| ensures IsWhitespace(s[k]) {
      if k >= i {
        assert i + |t| <= k;
      }
    }
  }

  /** The trimmed slice of a string is unique: whichever offset it is found
      at, it is what `Trim` returns. */
  lemma {:induction false} TrimUnique(s: string, t: string, i: int)
    requires TrimmedSliceAt(s, t, i)
    ensures t == Trim(s)
  {
    var u := Trim(s);
    TrimSlice(s);
    if t == [] {
      EmptySlice(s, t, i);
    } else {
      assert !IsWhitespace(s[i]) by {
        assert s[i] == t[0];
      }
      SameStart(s, t, i, u, Lead(s));
      SameLength(s, t, u, i);
    }
  }

  /** A string that is already trimmed is left as it is. */
  lemma TrimOfTrimmed(s: string)
    requires IsTrimmed(s)
    ensures Trim(s) == s
  {
    if s != [] {
      assert Lead(s) == 0 && End(s) == |s|;
    }
  }

  /** Trimming twice is trimming once. */
  lemma TrimIdempotent(s: string)
    ensures Trim(Trim(s)) == Trim(s)
  {
    TrimOfTrimmed(Trim(s));
  }

  predicate IsAsciiUpper(c: char) {
    'A' <= c <= 'Z'
  }

  /** Lower-cases one ASCII letter and leaves every other character alone. */
  function LowerChar(c: char): (d: char)
    ensures !IsAsciiUpper(d)
    ensures !IsAsciiUpper(c) ==> d == c
    ensures IsAsciiUpper(c) ==> d as int == c as int + 32
  {
    if IsAsciiUpper(c) then (c as int + 32) as char else c
  }

  /** Lower-casing never turns white space into something else or the
      other way round. */
  lemma LowerCharKeepsWhitespace(c: char)
    ensures IsWhitespace(LowerChar(c)) <==> IsWhitespace(c)
  {
    if IsAsciiUpper(c) {
      assert !IsWhitespace(c) && !IsWhitespace(LowerChar(c));
    }
  }

  /** ASCII `toLowerCase()`: the character-by-character image of `s` under
      `LowerChar`, so `r` has no upper-case letter and every character that
      is not an upper-case letter is kept. */
  function ToLower(s: string): (r: string)
    ensures |r| == |s|
    ensures forall i :: 0 <= i < |r| ==> !IsAsciiUpper(r[i]) && (!IsAsciiUpper(s[i]) ==> r[i] == s[i])
    ensures forall i :: 0 <= i < |s| && IsAsciiUpper(s[i]) ==> r[i] as int == s[i] as int + 32
  {
    seq(|s|, i requires 0 <= i < |s| => LowerChar(s[i]))
  }

  /** Lower-casing twice is lower-casing once. */
  lemma ToLowerIdempotent(s: string)
    ensures ToLower(ToLower(s)) == ToLower(s)
  {
  }

  /** Lower-casing commutes with any slice. */
  lemma ToLowerSlice(s: string, i: int, j: int)
    requires 0 <= i <= j <= |s|
    ensures ToLower(s)[i..j] == ToLower(s[i..j])
  {
  }

  /** Lower-casing maps white space to white space and nothing else to it. */
  lemma LowerKeepsWhitespace(s: string, k: int)
    requires 0 <= k < |s|
    ensures IsWhitespace(ToLower(s)[k]) <==> IsWhitespace(s[k])
  {
    LowerCharKeepsWhitespace(s[k]);
  }

  /** Lower-casing keeps a trimmed string trimmed. */
  lemma LowerKeepsTrimmed(t: string)
    requires IsTrimmed(t)
    ensures IsTrimmed(ToLower(t))
  {
    if t != [] {
      LowerKeepsWhitespace(t, 0);
      LowerKeepsWhitespace(t, |t| - 1);
    }
  }

  /** Lower-casing a string keeps its trimmed slice where it was. */
  lemma TrimmedSliceUnderLower(s: string, t: string, i: int)
    requires TrimmedSliceAt(s, t, i)
    ensures TrimmedSliceAt(ToLower(s), ToLower(t), i)
  {
    var l := ToLower(s);
    ToLowerSlice(s, i, i + |t|);
    assert ToLower(t) == l[i..i + |t|];
    forall k | 0 <= k < i ensures IsWhitespace(l[k]) {
      LowerKeepsWhitespace(s, k);
    }
    forall k | i + |t| <= k < |l| ensures IsWhitespace(l[k]) {
      LowerKeepsWhitespace(s, k);
    }
    LowerKeepsTrimmed(t);
  }

  /** The order of the schema's `trim` and `lowercase` setters does not
      matter: lower-casing never creates or removes white space. */
  lemma {:induction false} TrimLowerCommute(s: string)
    ensures Trim(ToLower(s)) == ToLower(Trim(s))
  {
    TrimSlice(s);
    TrimmedSliceUnderLower(s, Trim(s), Lead(s));
    TrimUnique(ToLower(s), ToLower(Trim(s)), Lead(s));
  }

  /** JavaScript truthiness of a string that may be `undefined`: it must be
      present and non-empty. */
  predicate Truthy(v: Option<string>) {
    v.Some? && v.value != []
  }

  /** JavaScript's `a || b` on strings that may be `undefined`. */
  function Or(a: Option<string>, b: Option<string>): (r: Option<string>)
    ensures Truthy(r) <==> Truthy(a) || Truthy(b)
    ensures Truthy(a) ==> r == a
    ensures !Truthy(a) ==> r == b
  {
    if Truthy(a) then a else b
  }
}
