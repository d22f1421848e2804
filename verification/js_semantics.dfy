/**
 The small part of JavaScript's semantics the modelled code relies on:
 `undefined`-able values, `Array.prototype.find` / `findIndex` / `filter`,
 `String.prototype.toLowerCase` on ASCII text, truthiness, and the JSX
 idiom `{cond && child}` that renders `child` only when `cond` holds.
 */
module JsSemantics {

  /** A value that may be `undefined` (or `null`). */
  datatype Option<+T> = None | Some(value: T)

  /** The outcome of code that either returns a value or throws an error. */
  datatype Result<+T, +E> = Ok(value: T) | Err(error: E)

  // ---------------------------------------------------------------------------
  // Arrays
  // ---------------------------------------------------------------------------

  /** `findIndex`: the index of the first element satisfying `p`, if any. */
  function FindIndex<T>(s: seq<T>, p: T -> bool): (r: Option<nat>)
    ensures r.Some? ==> r.value < |s| && p(s[r.value])
    ensures r.Some? ==> forall j :: 0 <= j < r.value ==> !p(s[j])
    ensures r.None? <==> forall j :: 0 <= j < |s| ==> !p(s[j])
    decreases |s|
  {
    if |s| == 0 then None
    else if p(s[0]) then Some(0)
    else
      match FindIndex(s[1..], p)
      case None => None
      case Some(k) => Some(k + 1)
  }

  /** `find`: the first element satisfying `p`; `None` stands for `undefined`. */
  function Find<T>(s: seq<T>, p: T -> bool): (r: Option<T>)
    ensures r.Some? ==> r.value in s && p(r.value)
    ensures r.Some? ==> exists i :: 0 <= i < |s| && s[i] == r.value && IsFirstMatch(s, p, i)
    ensures r.None? <==> forall x :: x in s ==> !p(x)
  {
    match FindIndex(s, p)
    case None => None
    case Some(i) => Some(s[i])
  }

  /** `i` is the position of the first element of `s` that satisfies `p`. */
  predicate IsFirstMatch<T>(s: seq<T>, p: T -> bool, i: nat)
  {
    i < |s| && p(s[i]) && forall j :: 0 <= j < i ==> !p(s[j])
  }

  /** Two predicates that agree on every element find the same index. */
  lemma {:induction false} FindIndexCongruent<T>(s: seq<T>, p: T -> bool, q: T -> bool)
    requires forall j :: 0 <= j < |s| ==> p(s[j]) == q(s[j])
    ensures FindIndex(s, p) == FindIndex(s, q)
    decreases |s|
  {
    if |s| > 0 && !p(s[0]) {
      FindIndexCongruent(s[1..], p, q);
    }
  }

  /** `filter`: the elements satisfying `p`, in their original order. */
  function Filter<T>(s: seq<T>, p: T -> bool): (r: seq<T>)
    ensures |r| <= |s|
    ensures forall i :: 0 <= i < |r| ==> p(r[i])
    ensures forall x :: x in r ==> x in s && p(x)
    ensures forall x :: x in s && p(x) ==> x in r
    decreases |s|
  {
    if |s| == 0 then []
    else (if p(s[0]) then [s[0]] else []) + Filter(s[1..], p)
  }

  /** Filtering a concatenation filters each part and keeps them in order. */
  lemma {:induction false} FilterConcat<T>(a: seq<T>, b: seq<T>, p: T -> bool)
    ensures Filter(a + b, p) == Filter(a, p) + Filter(b, p)
    decreases |a|
  {
    if |a| == 0 {
      assert a + b == b;
    } else {
      assert (a + b)[1..] == a[1..] + b;
      FilterConcat(a[1..], b, p);
    }
  }

  /** Filtering keeps a sequence whole exactly when every element passes. */
  lemma {:induction false} FilterKeepsAll<T>(s: seq<T>, p: T -> bool)
    ensures Filter(s, p) == s <==> forall i :: 0 <= i < |s| ==> p(s[i])
    decreases |s|
  {
    if |s| > 0 {
      FilterKeepsAll(s[1..], p);
      if !p(s[0]) {
        assert |Filter(s, p)| < |s|;
      }
    }
  }

  // ---------------------------------------------------------------------------
  // Strings
  // ---------------------------------------------------------------------------

  predicate IsUpperAscii(c: char)
  {
    'A' <= c <= 'Z'
  }

  /** `toLowerCase` restricted to ASCII letters. */
  function LowerChar(c: char): (d: char)
    ensures !IsUpperAscii(d)
    ensures IsUpperAscii(c) ==> 'a' <= d <= 'z' && d as int - c as int == 'a' as int - 'A' as int
    ensures !IsUpperAscii(c) ==> d == c
  {
    if IsUpperAscii(c) then (c as int - 'A' as int + 'a' as int) as char else c
  }

  function ToLower(s: string): (r: string)
    ensures |r| == |s|
    ensures forall i :: 0 <= i < |r| ==> !IsUpperAscii(r[i])
    ensures forall i :: 0 <= i < |s| && !IsUpperAscii(s[i]) ==> r[i] == s[i]
  {
    seq(|s|, i requires 0 <= i < |s| => LowerChar(s[i]))
  }

  /** Two characters are the same letter up to ASCII case. */
  predicate SameLetterIgnoringCase(c: char, d: char)
  {
    c == d
    || (IsUpperAscii(c) && d as int == c as int + 32)
    || (IsUpperAscii(d) && c as int == d as int + 32)
  }

  /** `a.toLowerCase() === b.toLowerCase()`. */
  predicate EqualsIgnoringCase(a: string, b: string)
  {
    ToLower(a) == ToLower(b)
  }

  /** Comparing lowered strings is comparing position-wise up to case. */
  lemma EqualsIgnoringCaseCharwise(a: string, b: string)
    ensures EqualsIgnoringCase(a, b) <==>
              |a| == |b| && forall i :: 0 <= i < |a| ==> SameLetterIgnoringCase(a[i], b[i])
  {
    if |a| == |b| && forall i :: 0 <= i < |a| ==> SameLetterIgnoringCase(a[i], b[i]) {
      forall i | 0 <= i < |a|
        ensures ToLower(a)[i] == ToLower(b)[i]
      {
        assert SameLetterIgnoringCase(a[i], b[i]);
      }
    }
    if EqualsIgnoringCase(a, b) {
      forall i | 0 <= i < |a|
        ensures SameLetterIgnoringCase(a[i], b[i])
      {
        assert ToLower(a)[i] == LowerChar(a[i]) && ToLower(b)[i] == LowerChar(b[i]);
      }
    }
  }

  // ---------------------------------------------------------------------------
  // Truthiness
  // ---------------------------------------------------------------------------

  /** A possibly-undefined string is truthy when defined and non-empty. */
  predicate Truthy(s: Option<string>)
  {
    s.Some? && s.value != ""
  }

  /** JSON values as they travel through request and response bodies. */
  datatype Json =
    | JNull
    | JBool(b: bool)
    | JNum(n: int)
    | JStr(s: string)
    | JArr(items: seq<Json>)
    | JObj(fields: seq<(string, Json)>)

  /** Truthiness of a possibly-undefined JSON value: objects and arrays are always truthy. */
  predicate JsonTruthy(v: Option<Json>)
  {
    match v
    case None => false
    case Some(JNull) => false
    case Some(JBool(b)) => b
    case Some(JNum(n)) => n != 0
    case Some(JStr(s)) => s != ""
    case Some(JArr(_)) => true
    case Some(JObj(_)) => true
  }

  // ---------------------------------------------------------------------------
  // JSX
  // ---------------------------------------------------------------------------

  /** What one `{cond && child}` renders: the child when the guard holds, nothing otherwise. */
  function Guarded<T>(p: (bool, T)): seq<T>
  {
    if p.0 then [p.1] else []
  }

  /**
   The children rendered by a list of `{cond && child}` expressions:
   `false` renders nothing, so exactly the children whose guard holds remain.
   */
  function Rendered<T>(parts: seq<(bool, T)>): (r: seq<T>)
    ensures |r| <= |parts|
    ensures forall x :: x in r ==> (true, x) in parts
    ensures forall i :: 0 <= i < |parts| && parts[i].0 ==> parts[i].1 in r
    ensures |parts| > 0 && parts[0].0 ==> |r| > 0 && r[0] == parts[0].1
    ensures (forall i :: 0 <= i < |parts| ==> !parts[i].0) ==> r == []
    decreases |parts|
  {
    if |parts| == 0 then []
    else (if parts[0].0 then [parts[0].1] else []) + Rendered(parts[1..])
  }

  /** A single `{cond && child}` renders its child when the guard holds, and nothing otherwise. */
  lemma RenderedOne<T>(p: (bool, T))
    ensures Rendered([p]) == Guarded(p)
  {
    assert [p][1..] == [];
  }

  /** A first `{cond && child}` renders its guarded child before the rest. */
  lemma RenderedCons<T>(p: (bool, T), rest: seq<(bool, T)>)
    ensures Rendered([p] + rest) == Guarded(p) + Rendered(rest)
  {
    assert ([p] + rest)[1..] == rest;
  }

  /** Six `{cond && child}` children in a row render as their guarded children, in order. */
  lemma RenderedSix<T>(p0: (bool, T), p1: (bool, T), p2: (bool, T), p3: (bool, T), p4: (bool, T), p5: (bool, T))
    ensures Rendered([p0, p1, p2, p3, p4, p5])
            == Guarded(p0) + (Guarded(p1) + (Guarded(p2) + (Guarded(p3) + (Guarded(p4) + Guarded(p5)))))
  {
    var r4 := [p4] + [p5];
    var r3 := [p3] + r4;
    var r2 := [p2] + r3;
    var r1 := [p1] + r2;
    assert [p0, p1, p2, p3, p4, p5] == [p0] + r1;
    RenderedOne(p5);
    RenderedCons(p4, [p5]);
    RenderedCons(p3, r4);
    RenderedCons(p2, r3);
    RenderedCons(p1, r2);
    RenderedCons(p0, r1);
  }

  /** When exactly one guard holds, exactly that child is rendered. */
  lemma {:induction false} RenderedSingle<T>(parts: seq<(bool, T)>, k: nat)
    requires k < |parts| && parts[k].0
    requires forall i :: 0 <= i < |parts| && i != k ==> !parts[i].0
    ensures Rendered(parts) == [parts[k].1]
    decreases |parts|
  {
    if k == 0 {
      assert forall i :: 0 <= i < |parts[1..]| ==> !parts[1..][i].0 by {
        forall i | 0 <= i < |parts[1..]|
          ensures !parts[1..][i].0
        {
          assert parts[1..][i] == parts[i + 1];
        }
      }
    } else {
      RenderedSingle(parts[1..], k - 1);
    }
  }
}
