/** The Python string built-ins the Penney core relies on, stated over
    `string` (= `seq<char>`): `str.index`, `re.search(r'\d+', ...)`,
    `int(...)` on a digit string and `str(...)` on a non-negative int. */
module PyStr {
  import opened Wrappers

  // ---------------------------------------------------------------------
  // Substring search: `s.index(p, start)`
  // ---------------------------------------------------------------------

  /** `p` occurs in `s` starting at index `k`. */
  predicate OccursAt(s: string, p: string, k: nat)
  {
    k + |p| <= |s| && s[k..k + |p|] == p
  }

  /** Some occurrence of `p` in `s` starts at or after `start`. */
  ghost predicate OccursFrom(s: string, p: string, start: nat)
  {
    exists k: nat :: start <= k && OccursAt(s, p, k)
  }

  /** No occurrence of `p` in `s` starts in `[lo, hi)`. */
  ghost predicate AbsentBetween(s: string, p: string, lo: nat, hi: nat)
  {
    forall k: nat :: lo <= k < hi ==> !OccursAt(s, p, k)
  }

  /** Python's `s.index(p, start)`; `None` stands for the `ValueError`
      it raises. What the index means is stated by `FindMeaning`. */
  function Find(s: string, p: string, start: nat): (r: Option<nat>)
    decreases |s| - start
  {
    if start + |p| > |s| then None
    else if MatchesAt(s, p, start, 0) then Some(start)
    else Find(s, p, start + 1)
  }

  /** Character-by-character comparison of `p[k..]` with the text of
      `s` at `start + k`. */
  function MatchesAt(s: string, p: string, start: nat, k: nat): bool
    requires start + |p| <= |s| && k <= |p|
    decreases |p| - k
  {
    k == |p| || (s[start + k] == p[k] && MatchesAt(s, p, start, k + 1))
  }

  /** The comparison succeeds exactly on an occurrence. */
  lemma {:induction false} MatchesAtSlices(s: string, p: string, start: nat, k: nat)
    requires start + |p| <= |s| && k <= |p|
    decreases |p| - k
    ensures MatchesAt(s, p, start, k) <==> s[start + k..start + |p|] == p[k..]
  {
    if k < |p| {
      MatchesAtSlices(s, p, start, k + 1);
      assert s[start + k..start + |p|] == [s[start + k]] + s[start + k + 1..start + |p|];
      assert p[k..] == [p[k]] + p[k + 1..];
    }
  }

  /** `Find` returns the first occurrence of `p` at or after `start`, and
      returns `None` exactly when there is none. */
  lemma {:induction false} FindMeaning(s: string, p: string, start: nat)
    decreases |s| - start
    ensures Find(s, p, start).Some? ==> start <= Find(s, p, start).value
    ensures Find(s, p, start).Some? ==> OccursAt(s, p, Find(s, p, start).value)
    ensures Find(s, p, start).Some? ==> AbsentBetween(s, p, start, Find(s, p, start).value)
    ensures Find(s, p, start).None? <==> !OccursFrom(s, p, start)
  {
    if start + |p| > |s| {
      assert forall k: nat :: start <= k ==> !OccursAt(s, p, k);
    } else if MatchesAt(s, p, start, 0) {
      MatchesAtSlices(s, p, start, 0);
      assert p[0..] == p;
      assert OccursAt(s, p, start);
    } else {
      MatchesAtSlices(s, p, start, 0);
      assert p[0..] == p;
      assert !OccursAt(s, p, start);
      FindMeaning(s, p, start + 1);
      NotAtStart(s, p, start);
    }
  }

  /** An occurrence from `start` that is not at `start` is one from
      `start + 1`. */
  lemma NotAtStart(s: string, p: string, start: nat)
    requires !OccursAt(s, p, start)
    ensures OccursFrom(s, p, start) <==> OccursFrom(s, p, start + 1)
  {
    if OccursFrom(s, p, start) {
      var k: nat :| start <= k && OccursAt(s, p, k);
      assert start + 1 <= k;
    }
    if OccursFrom(s, p, start + 1) {
      var k: nat :| start + 1 <= k && OccursAt(s, p, k);
      assert start <= k;
    }
  }

  // ---------------------------------------------------------------------
  // Decimal digits: `int(...)` and `str(...)`
  // ---------------------------------------------------------------------

  /** ASCII decimal digit. */
  predicate IsDigit(c: char)
  {
    '0' <= c <= '9'
  }

  predicate AllDigits(s: string)
  {
    forall k :: 0 <= k < |s| ==> IsDigit(s[k])
  }

  function DigitValue(c: char): nat
    requires IsDigit(c)
  {
    (c as int) - ('0' as int)
  }

  function DigitChar(d: nat): (c: char)
    requires d < 10
    ensures IsDigit(c) && DigitValue(c) == d
  {
    (('0' as int) + d) as char
  }

  /** Python's `int(ds)` for a string of decimal digits (leading zeros
      allowed, the empty string read as 0). */
  function DigitsValue(ds: string): nat
    requires AllDigits(ds)
    decreases |ds|
  {
    if |ds| == 0 then 0
    else 10 * DigitsValue(ds[..|ds| - 1]) + DigitValue(ds[|ds| - 1])
  }

  /** Python's `str(n)` for a non-negative int: the canonical decimal
      numeral, which `int` reads back. */
  function ToDecimal(n: nat): (r: string)
    decreases n
    ensures |r| > 0 && AllDigits(r)
    ensures DigitsValue(r) == n
    ensures r[0] == '0' ==> r == "0"
  {
    if n < 10 then [DigitChar(n)]
    else
      var prefix := ToDecimal(n / 10);
      var r := prefix + [DigitChar(n % 10)];
      assert r[..|r| - 1] == prefix;
      r
  }

  /** A numeral as `str` writes it: non-empty, all digits, and no
      leading zero unless it is "0" itself. */
  predicate Canonical(ds: string)
  {
    |ds| > 0 && AllDigits(ds) && (ds[0] == '0' ==> ds == "0")
  }

  /** A numeral that starts with a non-zero digit has a positive value. */
  lemma {:induction false} LeadingDigitPositive(ds: string)
    requires |ds| > 0 && AllDigits(ds) && ds[0] != '0'
    ensures DigitsValue(ds) > 0
  {
    if |ds| > 1 {
      LeadingDigitPositive(ds[..|ds| - 1]);
    }
  }

  /** `str(int(ds)) == ds` for a canonical numeral: `int` loses nothing
      on what `str` produces, so the two are mutually inverse. */
  lemma {:induction false} DecimalRoundTrip(ds: string)
    requires Canonical(ds)
    ensures ToDecimal(DigitsValue(ds)) == ds
  {
    var n := DigitsValue(ds);
    var last := ds[|ds| - 1];
    if |ds| == 1 {
      assert DigitChar(DigitValue(last)) == last;
    } else {
      var init := ds[..|ds| - 1];
      assert init[0] == ds[0];
      LeadingDigitPositive(init);
      DecimalRoundTrip(init);
      assert n / 10 == DigitsValue(init) && n % 10 == DigitValue(last);
      assert DigitChar(DigitValue(last)) == last;
      assert init + [last] == ds;
    }
  }

  // ---------------------------------------------------------------------
  // The first run of digits: `re.search(r'\d+', s)`
  // ---------------------------------------------------------------------

  /** `s[i..j]` is the leftmost maximal run of digits in `s`, which is
      what the greedy pattern `\d+` matches first. */
  ghost predicate FirstDigitRun(s: string, i: nat, j: nat)
  {
    && i < j <= |s|
    && (forall k :: 0 <= k < i ==> !IsDigit(s[k]))
    && (forall k :: i <= k < j ==> IsDigit(s[k]))
    && (j == |s| || !IsDigit(s[j]))
  }

  ghost predicate HasDigit(s: string)
  {
    exists k :: 0 <= k < |s| && IsDigit(s[k])
  }

  /** Index of the first digit at or after `i`, or `|s|` if none. */
  function SkipNonDigits(s: string, i: nat): (r: nat)
    requires i <= |s|
    decreases |s| - i
    ensures i <= r <= |s|
    ensures r < |s| ==> IsDigit(s[r])
    ensures forall k :: i <= k < r ==> !IsDigit(s[k])
  {
    if i == |s| || IsDigit(s[i]) then i else SkipNonDigits(s, i + 1)
  }

  /** End of the run of digits that starts at `i`. */
  function RunEnd(s: string, i: nat): (r: nat)
    requires i <= |s|
    decreases |s| - i
    ensures i <= r <= |s|
    ensures r < |s| ==> !IsDigit(s[r])
    ensures forall k :: i <= k < r ==> IsDigit(s[k])
  {
    if i == |s| || !IsDigit(s[i]) then i else RunEnd(s, i + 1)
  }

  /** `re.search(r'\d+', s)`, as the span of the match (`None` when the
      search finds nothing). */
  function SearchDigits(s: string): (r: Option<(nat, nat)>)
    ensures r.None? <==> !HasDigit(s)
    ensures r.Some? ==> FirstDigitRun(s, r.value.0, r.value.1)
  {
    var i := SkipNonDigits(s, 0);
    if i == |s| then None else Some((i, RunEnd(s, i)))
  }

  /** A string has at most one leftmost maximal digit run. */
  lemma FirstDigitRunUnique(s: string, i: nat, j: nat, i': nat, j': nat)
    requires FirstDigitRun(s, i, j) && FirstDigitRun(s, i', j')
    ensures i == i' && j == j'
  {
    // Each start is a digit, so neither lies before the other; each end
    // is the end of the string or a non-digit, so neither lies inside
    // the other's run.
    assert IsDigit(s[i]) && IsDigit(s[i']);
    assert j < |s| ==> !IsDigit(s[j]);
    assert j' < |s| ==> !IsDigit(s[j']);
  }
}
