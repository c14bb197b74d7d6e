/** String operations the normalizer and the KPI engine rely on: Python's
    `str.strip()`, lower-casing for the load-type comparison, Python's string
    ordering (which `groupby` sorts its keys by) and `", ".join`. */
module Text {

  /** The characters Python's `str.isspace()` accepts, which `strip()` removes. */
  predicate IsSpace(c: char) {
    ('\U{9}' <= c <= '\U{D}') || ('\U{1C}' <= c <= '\U{20}')
    || c == '\U{85}' || c == '\U{A0}' || c == '\U{1680}'
    || ('\U{2000}' <= c <= '\U{200A}')
    || c == '\U{2028}' || c == '\U{2029}' || c == '\U{202F}'
    || c == '\U{205F}' || c == '\U{3000}'
  }

  predicate AllSpace(s: string) {
    forall i :: 0 <= i < |s| ==> IsSpace(s[i])
  }

  /** Python's `k in s` on strings: `k` occurs in `s` as a contiguous slice. */
  predicate IsSubstring(k: string, s: string)
    decreases |s|
  {
    |k| <= |s| && (s[..|k|] == k || (|s| > 0 && IsSubstring(k, s[1..])))
  }

  /** Where `k` occurs in `s`. */
  function SubstringIndex(k: string, s: string): (i: nat)
    requires IsSubstring(k, s)
    ensures i + |k| <= |s| && s[i..i + |k|] == k
    decreases |s|
  {
    if s[..|k|] == k then 0
    else
      var j := SubstringIndex(k, s[1..]);
      assert s[1..][j..j + |k|] == s[j + 1..j + 1 + |k|];
      j + 1
  }

  /** A slice equal to `k` makes `k` a substring. */
  lemma {:induction false} SubstringAt(k: string, s: string, i: nat)
    requires i + |k| <= |s| && s[i..i + |k|] == k
    ensures IsSubstring(k, s)
    decreases i
  {
    if i > 0 {
      assert s[1..][i - 1..i - 1 + |k|] == s[i..i + |k|];
      SubstringAt(k, s[1..], i - 1);
    }
  }

  /** Neither starts nor ends with whitespace. */
  predicate IsTrimmed(s: string) {
    |s| == 0 || (!IsSpace(s[0]) && !IsSpace(s[|s| - 1]))
  }

  function TrimStart(s: string): (r: string)
    ensures |r| <= |s| && r == s[|s| - |r|..]
    ensures AllSpace(s[..|s| - |r|])
    ensures |r| == 0 || !IsSpace(r[0])
  {
    if |s| > 0 && IsSpace(s[0]) then TrimStart(s[1..]) else s
  }

  function TrimEnd(s: string): (r: string)
    ensures |r| <= |s| && r == s[..|r|]
    ensures AllSpace(s[|r|..])
    ensures |r| == 0 || !IsSpace(r[|r| - 1])
  {
    if |s| > 0 && IsSpace(s[|s| - 1]) then TrimEnd(s[..|s| - 1]) else s
  }

  /** `str.strip()`: the slice left after removing whitespace from both ends. */
  function Trim(s: string): (r: string)
    ensures IsTrimmed(r)
    ensures exists i, j :: 0 <= i <= j <= |s| && r == s[i..j] && AllSpace(s[..i]) && AllSpace(s[j..])
  {
    var t := TrimStart(s);
    var r := TrimEnd(t);
    var i := |s| - |t|;
    var j := i + |r|;
    assert t == s[i..];
    assert r == s[i..j];
    assert s[j..] == t[|r|..];
    assert AllSpace(s[..i]) && AllSpace(s[j..]);
    r
  }

  /** Trimming a trimmed string changes nothing, so trimming twice is trimming once. */
  lemma TrimmedIsFixed(s: string)
    requires IsTrimmed(s)
    ensures Trim(s) == s
  {
  }

  lemma TrimIdempotent(s: string)
    ensures Trim(Trim(s)) == Trim(s)
  {
    TrimmedIsFixed(Trim(s));
  }

  function AsciiLowerChar(c: char): char {
    if 'A' <= c <= 'Z' then (c as int + 32) as char else c
  }

  /** `str.lower()` on ASCII letters. Compared against an all-ASCII lower-case word
      such as "loaded", this decides equality exactly as `str.lower()` would. */
  function AsciiLower(s: string): (r: string)
    ensures |r| == |s|
    ensures forall i :: 0 <= i < |s| ==> r[i] == AsciiLowerChar(s[i])
  {
    if |s| == 0 then "" else [AsciiLowerChar(s[0])] + AsciiLower(s[1..])
  }

  /** Python's `<` on strings: lexicographic by code point, a proper prefix first. */
  predicate StrLt(a: string, b: string) {
    if |a| == 0 then |b| > 0
    else if |b| == 0 then false
    else if a[0] != b[0] then a[0] < b[0]
    else StrLt(a[1..], b[1..])
  }

  lemma {:induction false} StrLtIrreflexive(a: string)
    ensures !StrLt(a, a)
  {
    if |a| > 0 {
      StrLtIrreflexive(a[1..]);
    }
  }

  lemma {:induction false} StrLtTransitive(a: string, b: string, c: string)
    requires StrLt(a, b) && StrLt(b, c)
    ensures StrLt(a, c)
  {
    if |a| > 0 && |b| > 0 && |c| > 0 && a[0] == b[0] && b[0] == c[0] {
      StrLtTransitive(a[1..], b[1..], c[1..]);
    }
  }

  lemma {:induction false} StrLtTotal(a: string, b: string)
    requires a != b
    ensures StrLt(a, b) || StrLt(b, a)
  {
    if |a| > 0 && |b| > 0 && a[0] == b[0] {
      assert a == [a[0]] + a[1..];
      assert b == [b[0]] + b[1..];
      StrLtTotal(a[1..], b[1..]);
    }
  }

  /** Strictly ascending, hence free of duplicates. */
  predicate StrictlySorted(s: seq<string>) {
    forall i, j :: 0 <= i < j < |s| ==> StrLt(s[i], s[j])
  }

  /** Adds `k` to a strictly ascending key list, keeping it strictly ascending. */
  function InsertKey(keys: seq<string>, k: string): (r: seq<string>)
    requires StrictlySorted(keys)
    ensures StrictlySorted(r)
    ensures forall x :: x in r <==> x in keys || x == k
  {
    if |keys| == 0 then [k]
    else if k == keys[0] then keys
    else if StrLt(k, keys[0]) then
      assert forall j :: 0 <= j < |keys| ==> StrLt(k, keys[j]) by {
        forall j | 0 < j < |keys| {
          StrLtTransitive(k, keys[0], keys[j]);
        }
      }
      [k] + keys
    else
      StrLtTotal(k, keys[0]);
      var rest := InsertKey(keys[1..], k);
      assert forall x :: x in rest ==> StrLt(keys[0], x);
      [keys[0]] + rest
  }

  /** `sep.join(parts)`. */
  function Join(parts: seq<string>, sep: string): string {
    if |parts| == 0 then ""
    else if |parts| == 1 then parts[0]
    else parts[0] + sep + Join(parts[1..], sep)
  }

  /** Joining one more part appends the separator and that part: the parts
      appear in their given order, one separator between neighbours. */
  lemma {:induction false} JoinAppend(parts: seq<string>, p: string, sep: string)
    requires |parts| > 0
    ensures Join(parts + [p], sep) == Join(parts, sep) + sep + p
    decreases |parts|
  {
    if |parts| == 1 {
      assert parts + [p] == [parts[0], p];
      assert [parts[0], p][1..] == [p];
    } else {
      assert (parts + [p])[1..] == parts[1..] + [p];
      JoinAppend(parts[1..], p, sep);
    }
  }
}
