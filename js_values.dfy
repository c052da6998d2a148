/**
 * The few JavaScript value semantics the booking code relies on: property
 * lookup that yields `undefined` for a missing key, truthiness (`||=`,
 * `if (x)`), conversion of a value to a property key or a template-literal
 * string, and `Array.prototype.find`.
 */
module JsValues {
  import opened Wrappers

  /** A JSON-like value. Objects and arrays are opaque references; numbers are integers. */
  datatype Value = Undefined | Null | Bool(b: bool) | Num(n: int) | Str(s: string) | Ref(id: nat)

  /** The own properties of a plain object (a tool-call argument object, an event body). */
  type Fields = map<string, Value>

  /** `o[k]`: a missing property reads as `undefined`. */
  function Get(o: Fields, k: string): Value
  {
    if k in o then o[k] else Undefined
  }

  /** The values JavaScript treats as false in `if`, `||` and `||=`. */
  predicate Falsy(v: Value)
  {
    v == Undefined || v == Null || v == Bool(false) || v == Num(0) || v == Str("")
  }

  function DigitChar(d: nat): (c: char)
    requires d < 10
    ensures '0' <= c <= '9'
  {
    "0123456789"[d]
  }

  /** Decimal digits of a natural number, without leading zeros. */
  function NatToString(n: nat): (s: string)
    ensures |s| > 0
    ensures forall i :: 0 <= i < |s| ==> '0' <= s[i] <= '9'
    ensures n >= 10 ==> s[0] != '0'
  {
    if n < 10 then [DigitChar(n)] else NatToString(n / 10) + [DigitChar(n % 10)]
  }

  /**
   * `String(v)`, which is also how `obj[v]` turns `v` into a property key and
   * how a template literal `${v}` renders it.
   */
  function ToJsString(v: Value): (s: string)
    ensures v.Str? ==> s == v.s
    ensures v == Undefined ==> s == "undefined"
  {
    match v
    case Undefined => "undefined"
    case Null => "null"
    case Bool(b) => if b then "true" else "false"
    case Num(n) => if n < 0 then "-" + NatToString(-n) else NatToString(n)
    case Str(s) => s
    case Ref(_) => "[object Object]"
  }

  /** `xs.find(p)`: the first element satisfying `p`, or `undefined` (None). */
  function Find<T>(xs: seq<T>, p: T -> bool): (r: Option<T>)
    ensures r.None? <==> forall i :: 0 <= i < |xs| ==> !p(xs[i])
    ensures r.Some? ==> exists i :: 0 <= i < |xs| && xs[i] == r.value && p(xs[i]) && forall j :: 0 <= j < i ==> !p(xs[j])
  {
    if |xs| == 0 then None
    else if p(xs[0]) then Some(xs[0])
    else
      var r := Find(xs[1..], p);
      assert r.Some? ==> exists i :: 0 <= i < |xs| - 1 && xs[1..][i] == r.value && p(xs[1..][i]) && forall j :: 0 <= j < i ==> !p(xs[1..][j]);
      assert r.Some? ==> exists i :: 1 <= i < |xs| && xs[i] == r.value && p(xs[i]) && forall j :: 0 <= j < i ==> !p(xs[j]) by {
        if r.Some? {
          var i :| 0 <= i < |xs| - 1 && xs[1..][i] == r.value && p(xs[1..][i]) && forall j :: 0 <= j < i ==> !p(xs[1..][j]);
          assert forall j :: 0 <= j < i + 1 ==> !p(xs[j]) by {
            forall j | 0 <= j < i + 1 ensures !p(xs[j]) {
              if j > 0 { assert xs[j] == xs[1..][j - 1]; }
            }
          }
        }
      }
      r
  }

  /** `s.replace(pattern, replacement)` with a string pattern: only the FIRST occurrence is replaced. */
  function ReplaceFirst(s: string, pattern: string, replacement: string): (r: string)
    requires |pattern| > 0
    ensures |s| < |pattern| ==> r == s
    ensures pattern <= s ==> r == replacement + s[|pattern|..]
    decreases |s|
  {
    if |s| < |pattern| then s
    else if pattern <= s then replacement + s[|pattern|..]
    else [s[0]] + ReplaceFirst(s[1..], pattern, replacement)
  }

  /** `pattern` occurs in `s` at index `k`. */
  predicate OccursAt(s: string, pattern: string, k: int)
  {
    0 <= k <= |s| - |pattern| && pattern <= s[k..]
  }

  /** The first occurrence, at `k`, is the one replaced; the text around it is kept. */
  lemma {:induction false} ReplaceFirstOccurrence(s: string, pattern: string, replacement: string, k: int)
    requires |pattern| > 0
    requires OccursAt(s, pattern, k)
    requires forall i :: 0 <= i < k ==> !OccursAt(s, pattern, i)
    ensures ReplaceFirst(s, pattern, replacement) == s[..k] + replacement + s[k + |pattern|..]
    decreases |s|
  {
    if k > 0 {
      assert !(pattern <= s) by {
        assert s[0..] == s;
        assert !OccursAt(s, pattern, 0);
      }
      ShiftedOccurrences(s, pattern, k);
      ReplaceFirstOccurrence(s[1..], pattern, replacement, k - 1);
      assert s[1..][..k - 1] == s[1..k];
      assert s[1..][k - 1 + |pattern|..] == s[k + |pattern|..];
      assert [s[0]] + s[1..k] == s[..k];
    } else {
      assert s[0..] == s;
    }
  }

  /** Occurrences in `s[1..]` are those of `s` shifted left by one. */
  lemma ShiftedOccurrences(s: string, pattern: string, k: int)
    requires 0 < k && OccursAt(s, pattern, k)
    requires forall i :: 0 <= i < k ==> !OccursAt(s, pattern, i)
    ensures OccursAt(s[1..], pattern, k - 1)
    ensures forall i :: 0 <= i < k - 1 ==> !OccursAt(s[1..], pattern, i)
  {
    assert s[1..][k - 1..] == s[k..];
    forall i | 0 <= i < k - 1 ensures !OccursAt(s[1..], pattern, i) {
      assert s[1..][i..] == s[i + 1..];
      assert !OccursAt(s, pattern, i + 1);
    }
  }

  /** Without an occurrence the string is unchanged. */
  lemma {:induction false} ReplaceFirstAbsent(s: string, pattern: string, replacement: string)
    requires |pattern| > 0
    requires forall i :: !OccursAt(s, pattern, i)
    ensures ReplaceFirst(s, pattern, replacement) == s
    decreases |s|
  {
    if |s| >= |pattern| {
      assert s[0..] == s;
      assert !OccursAt(s, pattern, 0);
      forall i ensures !OccursAt(s[1..], pattern, i) {
        if 0 <= i <= |s| - 1 - |pattern| {
          assert s[1..][i..] == s[i + 1..];
          assert !OccursAt(s, pattern, i + 1);
        }
      }
      ReplaceFirstAbsent(s[1..], pattern, replacement);
    }
  }
}
