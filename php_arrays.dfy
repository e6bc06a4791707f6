/**
 * PHP values and PHP's ordered arrays, as far as the admin hooks use them.
 *
 * A PHP array is an ordered list of (key, value) entries whose keys are
 * distinct. It is modelled as `seq<(K, V)>` together with `DistinctKeys`;
 * `$a + $b` is the left-biased `Union`, `$a[$k] = $v` is `Put`,
 * `$a[] = $v` is `Push` and `array_intersect_key` is `RestrictKeys`.
 */
module PhpArrays {

  datatype Option<T> = None | Some(value: T)

  /** An array key: PHP keys are integers or (non-numeric) strings. */
  datatype Key = IntKey(i: int) | StrKey(s: string)

  /** A PHP value as the hooks see it. */
  datatype Value =
    | Null
    | Bool(b: bool)
    | Int(n: int)
    | Str(s: string)
    | Arr(entries: seq<(Key, Value)>)

  const PHP_INT_MAX: int := 0x7FFF_FFFF_FFFF_FFFF
  const PHP_INT_MIN: int := -0x8000_0000_0000_0000

  // ---------------------------------------------------------------------
  // Ordered arrays

  predicate HasKey<K(==), V>(a: seq<(K, V)>, k: K) {
    exists i :: 0 <= i < |a| && a[i].0 == k
  }

  /** The invariant every PHP array keeps: no key occurs twice. */
  predicate DistinctKeys<K(==), V>(a: seq<(K, V)>) {
    forall i, j :: 0 <= i < j < |a| ==> a[i].0 != a[j].0
  }

  lemma HasKeyAppend<K, V>(a: seq<(K, V)>, b: seq<(K, V)>, k: K)
    ensures HasKey(a + b, k) <==> HasKey(a, k) || HasKey(b, k)
  {
    if HasKey(a + b, k) {
      var i :| 0 <= i < |a + b| && (a + b)[i].0 == k;
      if i >= |a| { assert b[i - |a|].0 == k; }
    }
    if HasKey(a, k) {
      var i :| 0 <= i < |a| && a[i].0 == k;
      assert (a + b)[i].0 == k;
    }
    if HasKey(b, k) {
      var i :| 0 <= i < |b| && b[i].0 == k;
      assert (a + b)[|a| + i].0 == k;
    }
  }

  lemma HasKeyCons<K, V>(b: seq<(K, V)>, k: K)
    requires b != []
    ensures HasKey(b, k) <==> b[0].0 == k || HasKey(b[1..], k)
  {
    assert b == [b[0]] + b[1..];
    HasKeyAppend([b[0]], b[1..], k);
  }

  /** The value stored under `k`, if any (`$a[$k] ?? null`). */
  function Lookup<K(==), V>(a: seq<(K, V)>, k: K): (r: Option<V>)
    ensures r.Some? <==> HasKey(a, k)
    ensures r.Some? ==> exists i :: 0 <= i < |a| && a[i] == (k, r.value)
  {
    if a == [] then None
    else if a[0].0 == k then Some(a[0].1)
    else
      var r := Lookup(a[1..], k);
      HasKeyCons(a, k);
      assert r.Some? ==> exists i :: 0 <= i < |a| && a[i] == (k, r.value) by {
        if r.Some? {
          var i :| 0 <= i < |a[1..]| && a[1..][i] == (k, r.value);
          assert a[i + 1] == (k, r.value);
        }
      }
      r
  }

  /**
   * `array_slice($a, 0, -$k, true)`: every entry but the last `k`
   * (nothing when the array has at most `k` entries).
   */
  function DropLast<K, V>(a: seq<(K, V)>, k: nat): (r: seq<(K, V)>)
    ensures |r| == if |a| <= k then 0 else |a| - k
    ensures r == a[..|r|]
  {
    if |a| <= k then [] else a[..|a| - k]
  }

  /**
   * `array_slice($a, -$k, $k, true)`: the last `k` entries (all of them when
   * there are fewer, because PHP clamps a negative offset to the start).
   */
  function TakeLast<K, V>(a: seq<(K, V)>, k: nat): (r: seq<(K, V)>)
    ensures |r| == if |a| <= k then |a| else k
    ensures r == a[|a| - |r|..]
  {
    if |a| <= k then a else a[|a| - k..]
  }

  /** The two slices the column filters take partition the array. */
  lemma {:induction false} DropLastTakeLast<K, V>(a: seq<(K, V)>, k: nat)
    ensures DropLast(a, k) + TakeLast(a, k) == a
  {
    var d := DropLast(a, k);
    assert |d| + |TakeLast(a, k)| == |a|;
    assert a == a[..|d|] + a[|d|..];
  }

  /** The entries of `b` whose key `a` does not have, in `b`'s order. */
  function Missing<K(==,!new), V>(b: seq<(K, V)>, a: seq<(K, V)>): (r: seq<(K, V)>)
    ensures |r| <= |b|
    ensures forall k :: HasKey(r, k) <==> HasKey(b, k) && !HasKey(a, k)
    ensures forall i :: 0 <= i < |r| ==> !HasKey(a, r[i].0)
    ensures IsSubsequence(r, b)
    ensures DistinctKeys(b) ==> DistinctKeys(r)
  {
    if b == [] then []
    else
      var rest := Missing(b[1..], a);
      forall k ensures HasKey(b, k) <==> b[0].0 == k || HasKey(b[1..], k) { HasKeyCons(b, k); }
      if HasKey(a, b[0].0) then
        assert IsSubsequence(rest, b);
        rest
      else
        KeepFirst(b, rest);
        [b[0]] + rest
  }

  /** `$a + $b`: the entries of `a`, then those of `b` whose key `a` lacks. */
  function Union<K(==,!new), V>(a: seq<(K, V)>, b: seq<(K, V)>): (r: seq<(K, V)>)
    ensures forall k :: HasKey(r, k) <==> HasKey(a, k) || HasKey(b, k)
    ensures |a| <= |r| <= |a| + |b|
    ensures r[..|a|] == a
    ensures IsSubsequence(r[|a|..], b)
    ensures forall i :: |a| <= i < |r| ==> !HasKey(a, r[i].0)
    ensures DistinctKeys(a) && DistinctKeys(b) ==> DistinctKeys(r)
  {
    var m := Missing(b, a);
    assert (a + m)[|a|..] == m;
    forall k ensures HasKey(a + m, k) <==> HasKey(a, k) || HasKey(b, k) {
      HasKeyAppend(a, m, k);
    }
    assert DistinctKeys(a) && DistinctKeys(b) ==> DistinctKeys(a + m) by {
      if DistinctKeys(a) && DistinctKeys(b) {
        forall i, j | 0 <= i < j < |a + m| ensures (a + m)[i].0 != (a + m)[j].0 {
          if j >= |a| && i < |a| {
            assert (a + m)[j] == m[j - |a|];
            assert !HasKey(a, m[j - |a|].0);
          } else if i >= |a| {
            assert (a + m)[i] == m[i - |a|] && (a + m)[j] == m[j - |a|];
          }
        }
      }
    }
    a + m
  }

  /** A lookup in `$a + $b` finds `a`'s value when `a` has the key, and `b`'s otherwise. */
  lemma {:induction false} UnionLookup<K(!new), V>(a: seq<(K, V)>, b: seq<(K, V)>, k: K)
    ensures Lookup(Union(a, b), k) == if HasKey(a, k) then Lookup(a, k) else Lookup(b, k)
  {
    LookupAppend(a, Missing(b, a), k);
    MissingLookup(b, a, k);
  }

  /** A lookup in a concatenation finds the first array's entry before the second's. */
  lemma {:induction false} LookupAppend<K, V>(a: seq<(K, V)>, b: seq<(K, V)>, k: K)
    ensures Lookup(a + b, k) == if HasKey(a, k) then Lookup(a, k) else Lookup(b, k)
  {
    if a == [] {
      assert a + b == b;
    } else {
      LookupAppend(a[1..], b, k);
      assert (a + b)[0] == a[0] && (a + b)[1..] == a[1..] + b;
      HasKeyCons(a, k);
    }
  }

  /** `Missing(b, a)` answers a lookup as `b` does, for the keys `a` lacks. */
  lemma {:induction false} MissingLookup<K(!new), V>(b: seq<(K, V)>, a: seq<(K, V)>, k: K)
    ensures Lookup(Missing(b, a), k) == if HasKey(a, k) then None else Lookup(b, k)
  {
    if b != [] && !HasKey(a, k) {
      MissingLookup(b[1..], a, k);
      var rest := Missing(b[1..], a);
      if !HasKey(a, b[0].0) {
        assert Missing(b, a) == [b[0]] + rest;
        assert ([b[0]] + rest)[1..] == rest;
      }
    }
  }

  /** When no key of `b` is in `a`, `$a + $b` is plain concatenation. */
  lemma {:induction false} UnionDisjoint<K(!new), V>(a: seq<(K, V)>, b: seq<(K, V)>)
    requires forall i :: 0 <= i < |b| ==> !HasKey(a, b[i].0)
    ensures Union(a, b) == a + b
  {
    MissingNone(b, a);
  }

  lemma {:induction false} MissingNone<K(!new), V>(b: seq<(K, V)>, a: seq<(K, V)>)
    requires forall i :: 0 <= i < |b| ==> !HasKey(a, b[i].0)
    ensures Missing(b, a) == b
  {
    if b != [] {
      MissingNone(b[1..], a);
      assert b == [b[0]] + b[1..];
    }
  }

  /** `r` is `a` with some entries left out, the rest kept in their order. */
  predicate IsSubsequence<T(==)>(r: seq<T>, a: seq<T>)
    decreases |a|
  {
    r == [] || (a != [] && ((r[0] == a[0] && IsSubsequence(r[1..], a[1..])) || IsSubsequence(r, a[1..])))
  }

  /** `array_intersect_key($a, $allowed)`: the entries whose key is allowed, in `a`'s order. */
  function RestrictKeys<K(==,!new), V>(a: seq<(K, V)>, allowed: set<K>): (r: seq<(K, V)>)
    ensures |r| <= |a|
    ensures IsSubsequence(r, a)
    ensures forall k :: HasKey(r, k) <==> HasKey(a, k) && k in allowed
    ensures forall i :: 0 <= i < |r| ==> r[i].0 in allowed
    ensures DistinctKeys(a) ==> DistinctKeys(r)
  {
    if a == [] then []
    else
      var rest := RestrictKeys(a[1..], allowed);
      forall k ensures HasKey(a, k) <==> a[0].0 == k || HasKey(a[1..], k) { HasKeyCons(a, k); }
      if a[0].0 in allowed then
        KeepFirst(a, rest);
        [a[0]] + rest
      else
        assert IsSubsequence(rest, a);
        rest
  }

  /**
   * Keeping `b`'s first entry in front of a subsequence `rest` of the
   * others gives a subsequence of `b` with one more key.
   */
  lemma KeepFirst<K, V>(b: seq<(K, V)>, rest: seq<(K, V)>)
    requires b != [] && IsSubsequence(rest, b[1..])
    requires DistinctKeys(b) ==> DistinctKeys(rest) && !HasKey(rest, b[0].0)
    ensures var r := [b[0]] + rest;
            IsSubsequence(r, b) &&
            (forall k :: HasKey(r, k) <==> b[0].0 == k || HasKey(rest, k)) &&
            (forall i :: 1 <= i < |r| ==> r[i] == rest[i - 1]) &&
            (DistinctKeys(b) ==> DistinctKeys(r))
  {
    var r := [b[0]] + rest;
    assert r[0] == b[0] && r[1..] == rest;
    forall k ensures HasKey(r, k) <==> b[0].0 == k || HasKey(rest, k) { HasKeyCons(r, k); }
    if DistinctKeys(b) {
      forall i, j | 0 <= i < j < |r| ensures r[i].0 != r[j].0 {
        if i == 0 { assert rest[j - 1].0 == r[j].0; }
        else { assert r[i] == rest[i - 1] && r[j] == rest[j - 1]; }
      }
    }
  }

  lemma {:induction false} RestrictKeysAllowed<K(!new), V>(a: seq<(K, V)>, allowed: set<K>)
    requires forall i :: 0 <= i < |a| ==> a[i].0 in allowed
    ensures RestrictKeys(a, allowed) == a
  {
    if a != [] {
      RestrictKeysAllowed(a[1..], allowed);
      assert [a[0]] + a[1..] == a;
    }
  }

  /** `$a[$k] = $v`: replaces the value in place when `k` is present, appends otherwise. */
  function Put<K(==,!new), V>(a: seq<(K, V)>, k: K, v: V): (r: seq<(K, V)>)
    ensures forall k' :: HasKey(r, k') <==> HasKey(a, k') || k' == k
    ensures HasKey(a, k) ==> |r| == |a| && forall i :: 0 <= i < |a| ==> r[i] == if a[i].0 == k then (k, v) else a[i]
    ensures !HasKey(a, k) ==> r == a + [(k, v)]
    ensures DistinctKeys(a) ==> DistinctKeys(r)
  {
    if HasKey(a, k) then
      var r := seq(|a|, i requires 0 <= i < |a| => if a[i].0 == k then (k, v) else a[i]);
      assert forall i :: 0 <= i < |a| ==> r[i].0 == a[i].0;
      forall k' ensures HasKey(r, k') <==> HasKey(a, k') || k' == k {
        if HasKey(r, k') { var i :| 0 <= i < |r| && r[i].0 == k'; assert a[i].0 == k'; }
        if HasKey(a, k') { var i :| 0 <= i < |a| && a[i].0 == k'; assert r[i].0 == k'; }
      }
      r
    else
      forall k' ensures HasKey(a + [(k, v)], k') <==> HasKey(a, k') || k' == k {
        HasKeyAppend(a, [(k, v)], k');
        assert HasKey([(k, v)], k') <==> k' == k by {
          if k' == k { assert [(k, v)][0].0 == k'; }
        }
      }
      a + [(k, v)]
  }

  /** After `$a[$k] = $v`, reading `$a[$k]` gives `v` and every other key reads as before. */
  lemma {:induction false} PutLookup<K(!new), V>(a: seq<(K, V)>, k: K, v: V, k': K)
    requires DistinctKeys(a)
    ensures Lookup(Put(a, k, v), k') == if k' == k then Some(v) else Lookup(a, k')
  {
    var r := Put(a, k, v);
    if k' == k {
      LookupAt(r, FirstIndex(r, k));
    } else if HasKey(a, k') {
      var i := FirstIndex(a, k');
      LookupAt(a, i);
      assert r[i] == a[i] || |r| == |a| + 1;
      LookupAt(r, i);
    }
  }

  ghost function FirstIndex<K, V>(a: seq<(K, V)>, k: K): (i: nat)
    requires HasKey(a, k)
    ensures i < |a| && a[i].0 == k
  {
    var i :| 0 <= i < |a| && a[i].0 == k; i
  }

  /** In an array with distinct keys, each key reads back the value stored beside it. */
  lemma {:induction false} LookupAt<K, V>(a: seq<(K, V)>, i: nat)
    requires DistinctKeys(a) && i < |a|
    ensures Lookup(a, a[i].0) == Some(a[i].1)
  {
    if i > 0 {
      assert a[0].0 != a[i].0;
      assert a[1..][i - 1] == a[i];
      LookupAt(a[1..], i - 1);
    }
  }

  /** The largest non-negative integer key of `a` plus one, or 0: the key `$a[] = $v` uses. */
  function NextIndex(a: seq<(Key, Value)>): (n: nat)
    ensures forall i :: 0 <= i < |a| && a[i].0.IntKey? ==> a[i].0.i < n
  {
    if a == [] then 0
    else
      var rest := NextIndex(a[1..]);
      assert forall i :: 1 <= i < |a| ==> a[i] == a[1..][i - 1];
      if a[0].0.IntKey? && a[0].0.i >= rest then a[0].0.i + 1 else rest
  }

  /** The values of an array in order (`array_values`). */
  function Values<K, V>(a: seq<(K, V)>): (r: seq<V>)
    ensures |r| == |a| && forall i :: 0 <= i < |a| ==> r[i] == a[i].1
  {
    seq(|a|, i requires 0 <= i < |a| => a[i].1)
  }

  /** `$a[] = $v`. */
  function Push(a: seq<(Key, Value)>, v: Value): (r: seq<(Key, Value)>)
    ensures r == a + [(IntKey(NextIndex(a)), v)]
    ensures !HasKey(a, IntKey(NextIndex(a)))
    ensures DistinctKeys(a) ==> DistinctKeys(r)
  {
    var k := IntKey(NextIndex(a));
    assert forall i :: 0 <= i < |a| ==> a[i].0 != k;
    a + [(k, v)]
  }

  // ---------------------------------------------------------------------
  // PHP's truth value, `empty()`, and `intval()`

  /** PHP's conversion to bool: what `if ($v)` and `?:` test. */
  predicate Truthy(v: Value) {
    match v
    case Null => false
    case Bool(b) => b
    case Int(n) => n != 0
    case Str(s) => s != "" && s != "0"
    case Arr(e) => e != []
  }

  /** `empty($s)` for a string that may be absent: true for null, "" and "0". */
  predicate EmptyString(s: Option<string>) {
    s.None? || !Truthy(Str(s.value))
  }

  /**
   * The array that `$v[] = …` or `$v['k'] = …` writes into: an array itself,
   * a fresh empty array for null and false, and a fatal error (None) for any
   * other scalar, where PHP 8 throws an Error (a string, empty or not, true
   * and numbers).
   */
  function WriteTarget(v: Value): (r: Option<seq<(Key, Value)>>)
    ensures r.Some? <==> v.Arr? || v == Null || v == Bool(false)
    ensures v.Arr? ==> r == Some(v.entries)
    ensures r.Some? && !v.Arr? ==> r.value == []
  {
    match v
    case Arr(e) => Some(e)
    case Null => Some([])
    case Bool(false) => Some([])
    case _ => None
  }

  predicate IsDigit(c: char) { '0' <= c <= '9' }

  predicate IsSpace(c: char) { c == ' ' || c == '\t' || c == '\n' || c == '\r' || c as int == 11 || c as int == 12 }

  /** The decimal value of a run of digits. */
  function DigitsValue(d: string): (n: nat)
    requires forall i :: 0 <= i < |d| ==> IsDigit(d[i])
  {
    if d == [] then 0
    else
      assert IsDigit(d[|d| - 1]);
      DigitsValue(d[..|d| - 1]) * 10 + DigitValue(d[|d| - 1])
  }

  function DigitValue(c: char): (n: nat)
    requires IsDigit(c)
    ensures n <= 9
  {
    c as int - '0' as int
  }

  /** The longest prefix of `s` made of digits. */
  function LeadingDigits(s: string): (d: string)
    ensures |d| <= |s| && d == s[..|d|]
    ensures forall i :: 0 <= i < |d| ==> IsDigit(d[i])
    ensures |d| < |s| ==> !IsDigit(s[|d|])
  {
    if s == [] || !IsDigit(s[0]) then []
    else
      var d := [s[0]] + LeadingDigits(s[1..]);
      assert forall i :: 1 <= i < |d| ==> d[i] == LeadingDigits(s[1..])[i - 1];
      d
  }

  function StripLeadingSpace(s: string): (t: string)
    ensures |t| <= |s| && t == s[|s| - |t|..]
    ensures t != [] ==> !IsSpace(t[0])
  {
    if s != [] && IsSpace(s[0]) then StripLeadingSpace(s[1..]) else s
  }

  function Clamp(n: int): (r: int)
    ensures PHP_INT_MIN <= r <= PHP_INT_MAX
    ensures PHP_INT_MIN <= n <= PHP_INT_MAX ==> r == n
    ensures n > PHP_INT_MAX ==> r == PHP_INT_MAX
    ensures n < PHP_INT_MIN ==> r == PHP_INT_MIN
  {
    if n > PHP_INT_MAX then PHP_INT_MAX else if n < PHP_INT_MIN then PHP_INT_MIN else n
  }

  /**
   * `intval($s)` for a string: leading white space, an optional sign and the
   * leading decimal digits; anything else reads as 0; out-of-range values
   * saturate at the 64-bit bounds.
   */
  function IntVal(s: string): (n: int)
    ensures PHP_INT_MIN <= n <= PHP_INT_MAX
    ensures s == [] ==> n == 0
  {
    ReadNumeral(StripLeadingSpace(s))
  }

  /** The numeral at the start of `t`: an optional sign, then digits. */
  function ReadNumeral(t: string): (n: int)
    ensures PHP_INT_MIN <= n <= PHP_INT_MAX
    ensures t == [] ==> n == 0
  {
    if t != [] && (t[0] == '-' || t[0] == '+') then
      var m: int := DigitsValue(LeadingDigits(t[1..]));
      Clamp(if t[0] == '-' then -m else m)
    else
      Clamp(DigitsValue(LeadingDigits(t)))
  }

  /** `absint($s)`: the absolute value of `intval($s)`. */
  function AbsInt(s: string): (n: nat)
    ensures n <= PHP_INT_MAX + 1
  {
    var v := IntVal(s);
    if v < 0 then -v else v
  }

  /** A plain decimal numeral reads back as its own value. */
  lemma {:induction false} IntValOfDigits(d: string)
    requires d != [] && forall i :: 0 <= i < |d| ==> IsDigit(d[i])
    requires DigitsValue(d) <= PHP_INT_MAX
    ensures IntVal(d) == DigitsValue(d)
  {
    assert IsDigit(d[0]) && !IsSpace(d[0]);
    assert StripLeadingSpace(d) == d;
    assert d[0] != '-' && d[0] != '+';
    LeadingDigitsAll(d);
    assert Clamp(DigitsValue(d)) == DigitsValue(d);
  }

  lemma {:induction false} LeadingDigitsAll(d: string)
    requires forall i :: 0 <= i < |d| ==> IsDigit(d[i])
    ensures LeadingDigits(d) == d
  {
    if d != [] { LeadingDigitsAll(d[1..]); }
  }

  predicate AllSpace(ws: string) { forall i :: 0 <= i < |ws| ==> IsSpace(ws[i]) }

  predicate AllDigits(d: string) { forall i :: 0 <= i < |d| ==> IsDigit(d[i]) }

  /** Text that cannot continue a numeral. */
  predicate EndsNumeral(tail: string) { tail == [] || !IsDigit(tail[0]) }

  /**
   * A signed numeral after any leading white space, followed by any text
   * that does not start with a digit, reads as its signed value `m`,
   * saturated at the 64-bit bounds; a sign with no digits after it reads as 0.
   */
  lemma {:induction false} IntValSigned(ws: string, sign: char, d: string, tail: string, m: int)
    requires AllSpace(ws) && (sign == '-' || sign == '+') && AllDigits(d) && EndsNumeral(tail)
    requires m == DigitsValue(d)
    ensures IntVal(ws + [sign] + d + tail) == Clamp(if sign == '-' then -m else m)
  {
    var t := [sign] + (d + tail);
    Regroup(ws, [sign], d, tail);
    SignFirst(sign, d + tail);
    IntValAfterSpace(ws, t);
    IntValUnspaced(t);
    DigitsOfNumeral(d, tail);
    ReadSigned(t, m);
  }

  /** An unsigned numeral after leading white space, followed by non-digits, reads as its value. */
  lemma {:induction false} IntValUnsigned(ws: string, d: string, tail: string, m: int)
    requires AllSpace(ws) && d != [] && AllDigits(d) && EndsNumeral(tail)
    requires m == DigitsValue(d)
    ensures IntVal(ws + d + tail) == Clamp(m)
  {
    var t := d + tail;
    assert ws + d + tail == ws + t;
    DigitFirst(d, tail);
    IntValAfterSpace(ws, t);
    IntValUnspaced(t);
    DigitsOfNumeral(d, tail);
    ReadUnsigned(t, m);
  }

  /** Text that starts, after white space, with neither a sign nor a digit reads as 0. */
  lemma {:induction false} IntValNonNumeric(ws: string, tail: string)
    requires AllSpace(ws)
    requires tail == [] || (!IsSpace(tail[0]) && !IsDigit(tail[0]) && tail[0] != '-' && tail[0] != '+')
    ensures IntVal(ws + tail) == 0
  {
    IntValAfterSpace(ws, tail);
    IntValUnspaced(tail);
    if tail != [] { assert LeadingDigits(tail) == []; }
    ReadUnsigned(tail, 0);
  }

  lemma Regroup(a: string, b: string, c: string, d: string)
    ensures a + b + c + d == a + (b + (c + d))
  {
  }

  lemma SignFirst(sign: char, u: string)
    requires sign == '-' || sign == '+'
    ensures ([sign] + u)[0] == sign && ([sign] + u)[1..] == u && !IsSpace(sign)
  {
  }

  lemma DigitFirst(d: string, tail: string)
    requires d != [] && AllDigits(d)
    ensures var t := d + tail; t[0] == d[0] && IsDigit(t[0]) && !IsSpace(t[0]) && t[0] != '-' && t[0] != '+'
  {
  }

  /** Leading white space does not change what `intval` reads. */
  lemma {:induction false} IntValAfterSpace(ws: string, t: string)
    requires AllSpace(ws) && (t == [] || !IsSpace(t[0]))
    ensures IntVal(ws + t) == IntVal(t)
  {
    StripSpacePrefix(ws, t);
    StripSpacePrefix([], t);
    assert [] + t == t;
  }

  lemma IntValUnspaced(t: string)
    requires t == [] || !IsSpace(t[0])
    ensures IntVal(t) == ReadNumeral(t)
  {
  }

  lemma ReadSigned(t: string, m: int)
    requires t != [] && (t[0] == '-' || t[0] == '+') && m == DigitsValue(LeadingDigits(t[1..]))
    ensures ReadNumeral(t) == Clamp(if t[0] == '-' then -m else m)
  {
  }

  lemma ReadUnsigned(t: string, m: int)
    requires (t == [] || (t[0] != '-' && t[0] != '+')) && m == DigitsValue(LeadingDigits(t))
    ensures ReadNumeral(t) == Clamp(m)
  {
  }

  lemma DigitsOfNumeral(d: string, tail: string)
    requires AllDigits(d) && EndsNumeral(tail)
    ensures DigitsValue(LeadingDigits(d + tail)) == DigitsValue(d)
  {
    LeadingDigitsPrefix(d, tail);
  }

  lemma {:induction false} StripSpacePrefix(ws: string, t: string)
    requires AllSpace(ws) && (t == [] || !IsSpace(t[0]))
    ensures StripLeadingSpace(ws + t) == t
  {
    if ws == [] {
      assert ws + t == t;
    } else {
      assert IsSpace(ws[0]);
      assert (ws + t)[0] == ws[0] && (ws + t)[1..] == ws[1..] + t;
      StripSpacePrefix(ws[1..], t);
    }
  }

  lemma {:induction false} LeadingDigitsPrefix(d: string, tail: string)
    requires AllDigits(d) && EndsNumeral(tail)
    ensures LeadingDigits(d + tail) == d
  {
    if d == [] {
      assert d + tail == tail;
    } else {
      assert IsDigit(d[0]);
      assert (d + tail)[0] == d[0] && (d + tail)[1..] == d[1..] + tail;
      LeadingDigitsPrefix(d[1..], tail);
    }
  }
}
