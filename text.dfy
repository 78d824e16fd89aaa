/** String helpers with the semantics of the JavaScript operations the
    handlers use: `String.prototype.trim`, the truthiness of a form field
    and the code-point order used to compare strings. */
module Text {
  import opened Wrappers

  /** ECMAScript WhiteSpace and LineTerminator code points, which `trim` removes. */
  predicate IsSpace(c: char)
  {
    c == '\t' || c == '\n' || c == '\U{000B}' || c == '\U{000C}' || c == '\r' || c == ' '
    || c == '\U{00A0}' || c == '\U{1680}' || ('\U{2000}' <= c <= '\U{200A}')
    || c == '\U{2028}' || c == '\U{2029}' || c == '\U{202F}' || c == '\U{205F}'
    || c == '\U{3000}' || c == '\U{FEFF}'
  }

  predicate AllSpace(s: string)
  {
    forall i :: 0 <= i < |s| ==> IsSpace(s[i])
  }

  /** Neither end of `s` is white space. */
  predicate Unpadded(s: string)
  {
    s == [] || (!IsSpace(s[0]) && !IsSpace(s[|s| - 1]))
  }

  /** Drops the leading white space. */
  function TrimStart(s: string): string
  {
    if |s| > 0 && IsSpace(s[0]) then TrimStart(s[1..]) else s
  }

  /** Drops the trailing white space. */
  function TrimEnd(s: string): string
  {
    if |s| > 0 && IsSpace(s[|s| - 1]) then TrimEnd(s[..|s| - 1]) else s
  }

  /** What is left by TrimStart is a suffix of `s`, everything dropped was
      white space, and the result does not start with white space. */
  lemma {:induction false} TrimStartSpec(s: string)
    ensures var r := TrimStart(s);
            && |r| <= |s| && r == s[|s| - |r|..]
            && AllSpace(s[..|s| - |r|])
            && (r == [] || !IsSpace(r[0]))
  {
    if |s| > 0 && IsSpace(s[0]) {
      TrimStartSpec(s[1..]);
      var r := TrimStart(s);
      assert s[..|s| - |r|] == [s[0]] + s[1..][..|s| - 1 - |r|];
    }
  }

  /** What is left by TrimEnd is a prefix of `s`, everything dropped was
      white space, and the result does not end with white space. */
  lemma {:induction false} TrimEndSpec(s: string)
    ensures var r := TrimEnd(s);
            && |r| <= |s| && r == s[..|r|]
            && AllSpace(s[|r|..])
            && (r == [] || !IsSpace(r[|r| - 1]))
  {
    if |s| > 0 && IsSpace(s[|s| - 1]) {
      TrimEndSpec(s[..|s| - 1]);
      var r := TrimEnd(s);
      assert s[|r|..] == s[..|s| - 1][|r|..] + [s[|s| - 1]];
    }
  }

  /** `s.trim()`: the infix of `s` left once white space is removed from both ends. */
  function Trim(s: string): (r: string)
    ensures Unpadded(r)
    ensures |r| <= |s|
  {
    TrimStartSpec(s);
    TrimEndSpec(TrimStart(s));
    TrimEnd(TrimStart(s))
  }

  /** Trim cuts `s` into white space, the result, and white space. */
  lemma TrimSplits(s: string)
    ensures exists i, j :: 0 <= i <= j <= |s| && Trim(s) == s[i..j]
                          && AllSpace(s[..i]) && AllSpace(s[j..])
  {
    TrimStartSpec(s);
    var a := TrimStart(s);
    TrimEndSpec(a);
    var i := |s| - |a|;
    var j := i + |TrimEnd(a)|;
    assert a == s[i..];
    assert TrimEnd(a) == a[..j - i] == s[i..j];
    assert a[j - i..] == s[j..];
    assert Trim(s) == s[i..j] && AllSpace(s[..i]) && AllSpace(s[j..]);
  }

  /** A string with no white space at either end is its own trim. */
  lemma TrimKeepsUnpadded(s: string)
    requires Unpadded(s)
    ensures Trim(s) == s
  {
  }

  /** Being its own trim is being unpadded. */
  lemma TrimmedIffUnpadded(s: string)
    ensures Trim(s) == s <==> Unpadded(s)
  {
    if Unpadded(s) {
      TrimKeepsUnpadded(s);
    }
  }

  /** Trimming twice is trimming once. */
  lemma TrimIdempotent(s: string)
    ensures Trim(Trim(s)) == Trim(s)
  {
    TrimKeepsUnpadded(Trim(s));
  }

  /** `s.trim() === ''` exactly when `s` is all white space. */
  lemma {:induction false} TrimEmptyIffAllSpace(s: string)
    ensures Trim(s) == "" <==> AllSpace(s)
  {
    TrimSplits(s);
    var i, j :| 0 <= i <= j <= |s| && Trim(s) == s[i..j] && AllSpace(s[..i]) && AllSpace(s[j..]);
    if Trim(s) == "" {
      assert i == j;
      forall k | 0 <= k < |s| ensures IsSpace(s[k]) {
        if k < i { assert s[..i][k] == s[k]; } else { assert s[j..][k - j] == s[k]; }
      }
    }
  }

  /** JavaScript truthiness of an optional string form field (`!field` is false). */
  predicate Truthy(field: Option<string>)
  {
    field.Some? && field.value != ""
  }

  /** `(field || '')`. */
  function OrEmpty(field: Option<string>): (r: string)
    ensures Truthy(field) ==> r == field.value
    ensures !Truthy(field) ==> r == ""
  {
    if Truthy(field) then field.value else ""
  }

  /** `!field || field.trim() === ''`: the guard the task handlers use for a required title. */
  predicate Blank(field: Option<string>)
  {
    !Truthy(field) || Trim(field.value) == ""
  }

  /** Strict lexicographic order of strings by code point, as a store sort on a string field uses. */
  predicate LexLess(a: string, b: string)
  {
    if a == [] then b != []
    else if b == [] then false
    else if a[0] != b[0] then a[0] < b[0]
    else LexLess(a[1..], b[1..])
  }
}
