/** Small value-level helpers shared by the other modules: an optional value,
    string prefixes, Python's `sep.join(parts)` and decimal rendering of
    naturals as done by an f-string. */
module Support {

  datatype Option<+T> = None | Some(value: T)

  /** `s.startswith(prefix)`; also what a Redis glob `prefix*` matches. */
  predicate StartsWith(s: string, prefix: string) {
    |prefix| <= |s| && s[..|prefix|] == prefix
  }

  lemma StartsWithAppend(prefix: string, rest: string)
    ensures StartsWith(prefix + rest, prefix)
  {
    assert (prefix + rest)[..|prefix|] == prefix;
  }

  /** Python's `sep.join(parts)`. */
  function Join(sep: string, parts: seq<string>): string
    decreases |parts|
  {
    if |parts| == 0 then ""
    else if |parts| == 1 then parts[0]
    else Join(sep, parts[..|parts| - 1]) + sep + parts[|parts| - 1]
  }

  /** Joining one more part adds exactly one separator in front of it; with
      the empty-list and singleton cases this characterises `Join`. */
  lemma JoinSnoc(sep: string, parts: seq<string>, last: string)
    ensures |parts| == 0 ==> Join(sep, parts + [last]) == last
    ensures |parts| > 0 ==> Join(sep, parts + [last]) == Join(sep, parts) + sep + last
  {
    assert (parts + [last])[..|parts|] == parts;
  }

  function DigitChar(d: nat): (c: char)
    requires d < 10
    ensures '0' <= c <= '9'
  {
    ['0', '1', '2', '3', '4', '5', '6', '7', '8', '9'][d]
  }

  /** Decimal rendering of a natural number, as `f"{n}"` prints it. */
  function NatToString(n: nat): (s: string)
    ensures |s| > 0
    ensures forall i :: 0 <= i < |s| ==> '0' <= s[i] <= '9'
    decreases n
  {
    if n < 10 then [DigitChar(n)] else NatToString(n / 10) + [DigitChar(n % 10)]
  }

  /** Reads a string of decimal digits back as a number: the inverse of
      `NatToString`. */
  function ParseDigits(s: string): nat
    requires forall i :: 0 <= i < |s| ==> '0' <= s[i] <= '9'
  {
    if s == [] then 0
    else ParseDigits(s[..|s| - 1]) * 10 + ((s[|s| - 1] as int) - ('0' as int))
  }

  lemma DigitCharValue(d: nat)
    requires d < 10
    ensures (DigitChar(d) as int) - ('0' as int) == d
  {
  }

  lemma {:induction false} NatToStringRoundTrip(n: nat)
    ensures ParseDigits(NatToString(n)) == n
    decreases n
  {
    if n < 10 {
      DigitCharValue(n);
    } else {
      var s := NatToString(n);
      assert s[..|s| - 1] == NatToString(n / 10);
      NatToStringRoundTrip(n / 10);
      DigitCharValue(n % 10);
    }
  }

  /** Different numbers get different renderings. */
  lemma NatToStringInjective(m: nat, n: nat)
    requires NatToString(m) == NatToString(n)
    ensures m == n
  {
    NatToStringRoundTrip(m);
    NatToStringRoundTrip(n);
  }

  /** Two appends in a row add both elements, in order. */
  lemma AppendTwo<T>(s: seq<T>, a: T, b: T)
    ensures s + [a] + [b] == s + [a, b]
  {
  }

  /** Storing `v` at `k` in a map that may already hold `k` is storing `v`
      at `k` in the original map. */
  lemma OverwriteKey<K, V>(m: map<K, V>, mid: map<K, V>, k: K, v: V)
    requires mid == m || (k in mid && mid == m[k := mid[k]])
    ensures mid[k := v] == m[k := v]
  {
  }

  /** The concatenation of `f` applied to each element, in order. */
  function Flatten<T, U>(xs: seq<T>, f: T -> seq<U>): seq<U> {
    if xs == [] then [] else Flatten(xs[..|xs| - 1], f) + f(xs[|xs| - 1])
  }

  /** Flattening a concatenation is concatenating the flattenings. */
  lemma {:induction false} FlattenAppend<T, U>(xs: seq<T>, ys: seq<T>, f: T -> seq<U>)
    ensures Flatten(xs + ys, f) == Flatten(xs, f) + Flatten(ys, f)
    decreases |ys|
  {
    if ys == [] {
      assert xs + ys == xs;
    } else {
      var init := ys[..|ys| - 1];
      assert (xs + ys)[..|xs + ys| - 1] == xs + init;
      FlattenAppend(xs, init, f);
    }
  }

  /** Flattening one more element appends its image. */
  lemma FlattenSnoc<T, U>(xs: seq<T>, x: T, f: T -> seq<U>)
    ensures Flatten(xs + [x], f) == Flatten(xs, f) + f(x)
  {
    assert (xs + [x])[..|xs|] == xs;
  }

  /** Appending five pieces one by one appends their concatenation. */
  lemma AppendFive<T>(s: seq<T>, a: seq<T>, b: seq<T>, c: seq<T>, d: seq<T>, e: seq<T>)
    ensures s + a + b + c + d + e == s + (a + (b + c + d + e))
  {
  }

  /** One more element of `xs` flattened: the step of a loop that appends
      `f(xs[i])` for each `i` in turn. */
  lemma FlattenStep<T, U>(xs: seq<T>, i: nat, before: seq<U>, after: seq<U>, f: T -> seq<U>)
    requires i < |xs| && before == Flatten(xs[..i], f) && after == before + f(xs[i])
    ensures after == Flatten(xs[..i + 1], f)
  {
    assert xs[..i + 1] == xs[..i] + [xs[i]];
    FlattenSnoc(xs[..i], xs[i], f);
  }

  /** When every image satisfies `P` throughout, so does the flattening. */
  lemma {:induction false} FlattenAll<T, U>(xs: seq<T>, f: T -> seq<U>, P: U -> bool)
    requires forall i, j :: 0 <= i < |xs| && 0 <= j < |f(xs[i])| ==> P(f(xs[i])[j])
    ensures forall k :: 0 <= k < |Flatten(xs, f)| ==> P(Flatten(xs, f)[k])
  {
    if xs != [] {
      var init := xs[..|xs| - 1];
      FlattenAll(init, f, P);
      var front, last := Flatten(init, f), f(xs[|xs| - 1]);
      forall k | 0 <= k < |Flatten(xs, f)|
        ensures P(Flatten(xs, f)[k])
      {
        if k >= |front| {
          assert Flatten(xs, f)[k] == last[k - |front|];
        } else {
          assert Flatten(xs, f)[k] == front[k];
        }
      }
    }
  }
}
