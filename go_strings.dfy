/**
 * The parts of Go's `strings` and `unicode` packages that the core calls.
 * A Go string is modelled as its sequence of runes (`seq<char>`), except where
 * the core works on bytes (see Middleware), where it is a `seq<byte>`.
 */
module GoStrings {

  /** `unicode.IsSpace`: exactly the Unicode White_Space characters Go lists. */
  predicate IsSpace(c: char)
  {
    var n := c as int;
    (9 <= n <= 13) || n == 32 || n == 0x85 || n == 0xA0 || n == 0x1680
    || (0x2000 <= n <= 0x200A) || n == 0x2028 || n == 0x2029
    || n == 0x202F || n == 0x205F || n == 0x3000
  }

  /** `unicode.IsUpper`, restricted to ASCII. */
  predicate IsUpper(c: char)
  {
    'A' <= c <= 'Z'
  }

  /** `unicode.IsLetter(r) && unicode.IsLower(r)`, restricted to ASCII. */
  predicate IsLower(c: char)
  {
    'a' <= c <= 'z'
  }

  /** `unicode.Is(unicode.Han, r)`, restricted to the CJK Unified Ideographs and Extension A blocks. */
  predicate IsHan(c: char)
  {
    var n := c as int;
    (0x3400 <= n <= 0x4DBF) || (0x4E00 <= n <= 0x9FFF)
  }

  /** `strings.Contains(s, sub)`: `sub` occurs in `s` at some offset. */
  predicate Contains<T(==)>(s: seq<T>, sub: seq<T>)
  {
    sub <= s || (s != [] && Contains(s[1..], sub))
  }

  /** `strings.ContainsAny(s, chars)`. */
  predicate ContainsAny<T(==)>(s: seq<T>, chars: seq<T>)
  {
    exists i :: 0 <= i < |s| && s[i] in chars
  }

  /** Every occurrence of `sub` at offset `k` is found by `Contains`. */
  lemma {:induction false} ContainsAt<T>(s: seq<T>, sub: seq<T>, k: nat)
    requires k <= |s| && sub <= s[k..]
    ensures Contains(s, sub)
  {
    if k > 0 {
      ContainsAt(s[1..], sub, k - 1);
      assert s[1..][k - 1..] == s[k..];
    }
  }

  /** `Contains` finds nothing that does not occur at some offset. */
  lemma {:induction false} ContainsWitness<T>(s: seq<T>, sub: seq<T>) returns (k: nat)
    requires Contains(s, sub)
    ensures k <= |s| && sub <= s[k..]
  {
    if sub <= s {
      k := 0;
    } else {
      var j := ContainsWitness(s[1..], sub);
      assert s[1..][j..] == s[j + 1..];
      k := j + 1;
    }
  }

  /** The number of occurrences of `x` in `s` (`strings.Count` for a one-element separator). */
  function CountOf<T(==)>(s: seq<T>, x: T): (n: nat)
    ensures n <= |s|
    ensures n == 0 <==> x !in s
  {
    if s == [] then 0 else (if s[0] == x then 1 else 0) + CountOf(s[1..], x)
  }

  lemma {:induction false} CountOfAppend<T>(a: seq<T>, b: seq<T>, x: T)
    ensures CountOf(a + b, x) == CountOf(a, x) + CountOf(b, x)
  {
    if a == [] {
      assert a + b == b;
    } else {
      assert (a + b)[0] == a[0] && (a + b)[1..] == a[1..] + b;
      CountOfAppend(a[1..], b, x);
    }
  }

  /** `strings.Replace(s, x, "", -1)` for a one-element `x`: every `x` is dropped, nothing else changes. */
  function DeleteAll<T(==)>(s: seq<T>, x: T): (r: seq<T>)
    ensures x !in r
    ensures multiset(r) == multiset(s)[x := 0]
    ensures x !in s ==> r == s
  {
    if s == [] then []
    else
      var rest := DeleteAll(s[1..], x);
      assert s == [s[0]] + s[1..];
      if s[0] == x then rest else [s[0]] + rest
  }

  /** The order of the surviving elements is kept: deleting distributes over concatenation. */
  lemma {:induction false} DeleteAllAppend<T>(a: seq<T>, b: seq<T>, x: T)
    ensures DeleteAll(a + b, x) == DeleteAll(a, x) + DeleteAll(b, x)
  {
    if a == [] {
      assert a + b == b;
    } else {
      assert (a + b)[0] == a[0] && (a + b)[1..] == a[1..] + b;
      DeleteAllAppend(a[1..], b, x);
    }
  }

  /** `strings.TrimLeft(s, whitespace)`: drops the leading white space. */
  function TrimLeft(s: string): (r: string)
    ensures |r| <= |s| && r == s[|s| - |r|..]
    ensures r == [] || !IsSpace(r[0])
    ensures forall k :: 0 <= k < |s| - |r| ==> IsSpace(s[k])
  {
    if s != [] && IsSpace(s[0]) then TrimLeft(s[1..]) else s
  }

  /** `strings.TrimRight(s, whitespace)`: drops the trailing white space. */
  function TrimRight(s: string): (r: string)
    ensures |r| <= |s| && r == s[..|r|]
    ensures r == [] || !IsSpace(r[|r| - 1])
    ensures forall k :: |r| <= k < |s| ==> IsSpace(s[k])
  {
    if s != [] && IsSpace(s[|s| - 1]) then TrimRight(s[..|s| - 1]) else s
  }

  /** `strings.TrimSpace`. */
  function TrimSpace(s: string): (r: string)
    ensures r == [] || (!IsSpace(r[0]) && !IsSpace(r[|r| - 1]))
    ensures Contains(s, r)
  {
    var l := TrimLeft(s);
    var r := TrimRight(l);
    ContainsAt(s, r, |s| - |l|);
    r
  }

  /** Whether a field of `strings.Fields` starts at index `i` of `s`. */
  predicate FieldStart(s: string, i: int)
    requires 0 <= i < |s|
  {
    !IsSpace(s[i]) && (i == 0 || IsSpace(s[i - 1]))
  }

  /** `len(strings.Fields(s))`: the number of maximal runs of non-space runes. */
  function FieldCount(s: string): (n: nat)
    ensures n <= |s|
  {
    if s == [] then 0
    else FieldCount(s[..|s| - 1]) + (if FieldStart(s, |s| - 1) then 1 else 0)
  }

  /** A string of white space only has no field. */
  lemma {:induction false} FieldCountBlank(s: string)
    requires forall k :: 0 <= k < |s| ==> IsSpace(s[k])
    ensures FieldCount(s) == 0
  {
    if s != [] {
      FieldCountBlank(s[..|s| - 1]);
    }
  }

  /** A non-empty string without white space is one field. */
  lemma {:induction false} FieldCountOneWord(s: string)
    requires s != [] && forall k :: 0 <= k < |s| ==> !IsSpace(s[k])
    ensures FieldCount(s) == 1
  {
    if |s| > 1 {
      FieldCountOneWord(s[..|s| - 1]);
    }
  }
}
