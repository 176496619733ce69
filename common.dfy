/** Vocabulary shared by the backend and frontend models: optional values,
    error results, opaque clock readings, the Java string predicates the
    queries use, order-preserving filtering, and decimal rendering of ids. */
module Common {

  datatype Option<T> = None | Some(value: T)

  /** The outcome of an operation that throws with a message on failure. */
  datatype Result<T> = Ok(value: T) | Err(message: string)

  /** A clock reading (`LocalDateTime.now()`, `new Date()`); the model never inspects it. */
  type Timestamp = int

  // ---------------------------------------------------------------------------
  // Strings (ASCII case mapping)

  function LowerChar(c: char): char {
    if 'A' <= c <= 'Z' then (c as int - 'A' as int + 'a' as int) as char else c
  }

  /** `String.toLowerCase`, restricted to ASCII letters. */
  function Lower(s: string): (r: string)
    ensures |r| == |s|
    ensures forall i :: 0 <= i < |s| ==> r[i] == LowerChar(s[i])
  {
    seq(|s|, i requires 0 <= i < |s| => LowerChar(s[i]))
  }

  /** `needle` occurs in `hay` starting at index `i`. */
  predicate OccursAt(hay: string, needle: string, i: int) {
    0 <= i && i + |needle| <= |hay| && hay[i..i + |needle|] == needle
  }

  /** `String.contains`, and SQL `LIKE %needle%` when the argument holds no wildcard. */
  predicate Contains(hay: string, needle: string) {
    exists i :: 0 <= i <= |hay| - |needle| && OccursAt(hay, needle, i)
  }

  /** Case-insensitive containment (`toLowerCase().contains`, `ContainingIgnoreCase`). */
  predicate ContainsIgnoreCase(hay: string, needle: string) {
    Contains(Lower(hay), Lower(needle))
  }

  /** `String.equalsIgnoreCase`. */
  predicate EqualsIgnoreCase(a: string, b: string) {
    Lower(a) == Lower(b)
  }

  /** Every string contains itself. */
  lemma ContainsSelf(s: string)
    ensures Contains(s, s)
  {
    assert OccursAt(s, s, 0);
  }

  /** Lower-casing both sides keeps an occurrence where it was. */
  lemma LowerKeepsOccurrence(hay: string, needle: string, i: int)
    requires OccursAt(hay, needle, i)
    ensures OccursAt(Lower(hay), Lower(needle), i)
  {
    var lh, ln := Lower(hay), Lower(needle);
    forall k | 0 <= k < |needle|
      ensures lh[i..i + |needle|][k] == ln[k]
    {
      assert hay[i..i + |needle|][k] == needle[k];
    }
  }

  /** A case-sensitive match is also a case-insensitive one. */
  lemma ContainsImpliesIgnoreCase(hay: string, needle: string)
    requires Contains(hay, needle)
    ensures ContainsIgnoreCase(hay, needle)
  {
    var i :| 0 <= i <= |hay| - |needle| && OccursAt(hay, needle, i);
    LowerKeepsOccurrence(hay, needle, i);
  }

  /** Strings equal ignoring case contain each other ignoring case. */
  lemma EqualsIgnoreCaseContains(a: string, b: string)
    requires EqualsIgnoreCase(a, b)
    ensures ContainsIgnoreCase(a, b) && ContainsIgnoreCase(b, a)
  {
    ContainsSelf(Lower(a));
  }

  /** A character `String.trim` strips: any code point up to U+0020. */
  predicate Trimmable(c: char) {
    c <= ' '
  }

  /** A character outside the Basic Multilingual Plane, which UTF-16 encodes
      as a surrogate pair. */
  predicate Astral(c: char) {
    c as int > 0xFFFF
  }

  /** Java's `String.length()`: the number of UTF-16 code units, two for an
      astral character and one for any other. */
  function Utf16Length(s: string): (n: nat)
    ensures |s| <= n <= 2 * |s|
    ensures n == |s| <==> forall i :: 0 <= i < |s| ==> !Astral(s[i])
  {
    if s == [] then 0
    else
      var n := Utf16Length(s[1..]);
      assert forall i :: 0 < i < |s| ==> s[i] == s[1..][i - 1];
      n + (if Astral(s[0]) then 2 else 1)
  }

  /** The code units of a concatenation are those of its parts. */
  lemma {:induction false} Utf16LengthAppend(a: string, b: string)
    ensures Utf16Length(a + b) == Utf16Length(a) + Utf16Length(b)
    decreases |a|
  {
    if a == [] {
      assert a + b == b;
    } else {
      assert (a + b)[0] == a[0] && (a + b)[1..] == a[1..] + b;
      Utf16LengthAppend(a[1..], b);
    }
  }

  /** One emoji is one character but two code units. */
  lemma AstralCountsTwice()
    ensures |"\U{1F600}"| == 1 && Utf16Length("\U{1F600}") == 2
  {
  }

  /** Bean validation's `@NotBlank`, which Hibernate Validator checks as
      `trim().length() > 0`: some character survives `trim`. */
  predicate NotBlank(s: string) {
    exists i :: 0 <= i < |s| && !Trimmable(s[i])
  }

  // ---------------------------------------------------------------------------
  // Filtering and lookup

  /** The elements of `s` satisfying `p`, in their original order. */
  function Filter<T(!new)>(s: seq<T>, p: T -> bool): (r: seq<T>)
    ensures |r| <= |s|
    ensures forall x :: x in r <==> x in s && p(x)
  {
    if s == [] then []
    else (if p(s[0]) then [s[0]] else []) + Filter(s[1..], p)
  }

  /** Filtering distributes over concatenation, so it keeps relative order. */
  lemma {:induction false} FilterAppend<T(!new)>(a: seq<T>, b: seq<T>, p: T -> bool)
    ensures Filter(a + b, p) == Filter(a, p) + Filter(b, p)
  {
    if a == [] {
      assert a + b == b;
    } else {
      assert (a + b)[1..] == a[1..] + b;
      FilterAppend(a[1..], b, p);
    }
  }

  /** Filtering with two predicates that agree everywhere gives the same sequence. */
  lemma {:induction false} FilterSame<T(!new)>(s: seq<T>, p: T -> bool, q: T -> bool)
    requires forall x :: p(x) == q(x)
    ensures Filter(s, p) == Filter(s, q)
  {
    if s != [] {
      FilterSame(s[1..], p, q);
    }
  }

  /** Filtering twice is filtering once by the conjunction. */
  lemma {:induction false} FilterFilter<T(!new)>(s: seq<T>, p: T -> bool, q: T -> bool, pq: T -> bool)
    requires forall x :: pq(x) == (p(x) && q(x))
    ensures Filter(Filter(s, p), q) == Filter(s, pq)
  {
    if s != [] {
      FilterFilter(s[1..], p, q, pq);
      if p(s[0]) {
        assert Filter(s, p) == [s[0]] + Filter(s[1..], p);
        assert Filter(s, p)[1..] == Filter(s[1..], p);
      } else {
        assert Filter(s, p) == Filter(s[1..], p);
      }
    }
  }

  /** Filtering with a predicate every element satisfies returns the input. */
  lemma {:induction false} FilterAll<T(!new)>(s: seq<T>, p: T -> bool)
    requires forall x :: x in s ==> p(x)
    ensures Filter(s, p) == s
  {
    if s != [] {
      FilterAll(s[1..], p);
    }
  }

  /** Filtering out the single element that fails `p` is removing it by index. */
  lemma {:induction false} FilterRemoveAt<T(!new)>(s: seq<T>, p: T -> bool, k: nat)
    requires k < |s| && !p(s[k])
    requires forall j :: 0 <= j < |s| && j != k ==> p(s[j])
    ensures Filter(s, p) == RemoveAt(s, k)
  {
    var t := s[1..];
    if k == 0 {
      forall x | x in t
        ensures p(x)
      {
        var i :| 0 <= i < |t| && t[i] == x;
        assert s[i + 1] == x;
      }
      FilterAll(t, p);
      assert RemoveAt(s, k) == t;
    } else {
      forall j | 0 <= j < |t| && j != k - 1
        ensures p(t[j])
      {
        assert t[j] == s[j + 1];
      }
      FilterRemoveAt(t, p, k - 1);
      assert RemoveAt(s, k) == [s[0]] + RemoveAt(t, k - 1);
    }
  }

  /** The first element satisfying `p`, as `const [row] = await db.select()...where(...)`
      and a single-result derived query return it. */
  function FirstWhere<T(!new)>(s: seq<T>, p: T -> bool): (r: Option<T>)
    ensures r.Some? <==> exists x :: x in s && p(x)
    ensures r.Some? ==> r.value in s && p(r.value)
    ensures r.Some? ==> exists i :: 0 <= i < |s| && s[i] == r.value && forall j :: 0 <= j < i ==> !p(s[j])
  {
    match IndexWhere(s, p)
    case None => None
    case Some(i) => Some(s[i])
  }

  /** The index of the first element satisfying `p`. */
  function IndexWhere<T>(s: seq<T>, p: T -> bool): (r: Option<nat>)
    ensures r.None? <==> forall i :: 0 <= i < |s| ==> !p(s[i])
    ensures r.Some? ==> r.value < |s| && p(s[r.value]) && forall j :: 0 <= j < r.value ==> !p(s[j])
  {
    if s == [] then None
    else if p(s[0]) then Some(0)
    else
      match IndexWhere(s[1..], p)
      case None => None
      case Some(i) => Some(i + 1)
  }

  /** `s` without the element at index `i`. */
  function RemoveAt<T>(s: seq<T>, i: nat): (r: seq<T>)
    requires i < |s|
    ensures |r| == |s| - 1
    ensures forall k :: 0 <= k < i ==> r[k] == s[k]
    ensures forall k :: i <= k < |r| ==> r[k] == s[k + 1]
  {
    s[..i] + s[i + 1..]
  }

  // ---------------------------------------------------------------------------
  // Decimal rendering (`Long.toString`) and its inverse

  predicate IsDigit(c: char) { '0' <= c <= '9' }

  function NatToString(n: nat): (r: string)
    ensures |r| >= 1 && forall i :: 0 <= i < |r| ==> IsDigit(r[i])
  {
    if n < 10 then [('0' as int + n) as char]
    else NatToString(n / 10) + [('0' as int + n % 10) as char]
  }

  /** The decimal text of an integer, with a leading '-' for negatives. */
  function IntToString(i: int): string {
    if i < 0 then "-" + NatToString(-i) else NatToString(i)
  }

  /** Reads back a string of decimal digits. */
  function ParseDigits(s: string): nat
    requires forall i :: 0 <= i < |s| ==> IsDigit(s[i])
  {
    if s == [] then 0
    else
      assert IsDigit(s[|s| - 1]);
      ParseDigits(s[..|s| - 1]) * 10 + (s[|s| - 1] as int - '0' as int)
  }

  /** Reading back the decimal text of a natural number gives that number. */
  lemma {:induction false} ParseNatToString(n: nat)
    ensures ParseDigits(NatToString(n)) == n
  {
    if n >= 10 {
      var s := NatToString(n);
      assert s[..|s| - 1] == NatToString(n / 10);
      ParseNatToString(n / 10);
    }
  }

  /** Distinct natural numbers have distinct decimal texts. */
  lemma NatToStringInjective(a: nat, b: nat)
    requires a != b
    ensures NatToString(a) != NatToString(b)
  {
    ParseNatToString(a);
    ParseNatToString(b);
  }

  /** Distinct integers have distinct decimal texts. */
  lemma IntToStringInjective(a: int, b: int)
    requires a != b
    ensures IntToString(a) != IntToString(b)
  {
    var sa, sb := IntToString(a), IntToString(b);
    if a < 0 && b < 0 {
      NatToStringInjective(-a, -b);
      assert sa[1..] == NatToString(-a) && sb[1..] == NatToString(-b);
    } else if a >= 0 && b >= 0 {
      NatToStringInjective(a, b);
    } else if a < 0 {
      assert sa[0] == '-' && IsDigit(sb[0]);
    } else {
      assert sb[0] == '-' && IsDigit(sa[0]);
    }
  }
}
