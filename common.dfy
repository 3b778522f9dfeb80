/** Helpers shared by every module of the model: optional values, the rounding and
    clamping that the app applies to numbers, joining and formatting strings, and
    sums over sequences. */
module Common {

  /** A value that may be missing (a JavaScript `undefined`, a Python `None`, or a
      native or HTTP call that failed). */
  datatype Option<+T> = None | Some(value: T)

  /** JavaScript's `Math.round` on a real: the nearest integer, halves rounded up. */
  function Round(x: real): (r: int)
    ensures r as real - 0.5 <= x < r as real + 0.5
  {
    (x + 0.5).Floor
  }

  /** Rounding never leaves an integer interval that already holds its argument. */
  lemma RoundWithin(x: real, lo: int, hi: int)
    requires lo as real <= x <= hi as real
    ensures lo <= Round(x) <= hi
  {
  }

  /** A quotient of a value lying between `c * lo` and `c * hi` by a positive `c`
      lies between `lo` and `hi`: a mean lies within the range of what it averages. */
  lemma QuotientWithin(sum: real, c: real, lo: real, hi: real)
    requires c > 0.0 && c * lo <= sum <= c * hi
    ensures lo <= sum / c <= hi
  {
    assert sum / c - lo == (sum - c * lo) / c;
    assert hi - sum / c == (c * hi - sum) / c;
  }

  /** `Math.max(lo, Math.min(hi, x))` (Python: `max(lo, min(hi, x))`). */
  function Clamp(lo: real, hi: real, x: real): (r: real)
    requires lo <= hi
    ensures lo <= r <= hi
    ensures lo <= x <= hi ==> r == x
    ensures x < lo ==> r == lo
    ensures x > hi ==> r == hi
  {
    var capped := if x < hi then x else hi;
    if lo < capped then capped else lo
  }

  /** Clamping is monotonic: a larger input never gives a smaller output. */
  lemma ClampMonotonic(lo: real, hi: real, x: real, y: real)
    requires lo <= hi && x <= y
    ensures Clamp(lo, hi, x) <= Clamp(lo, hi, y)
  {
  }

  /** JavaScript's `Array.prototype.join(sep)` (Python's `sep.join(parts)`). */
  function Join(sep: string, parts: seq<string>): string
  {
    if |parts| == 0 then ""
    else if |parts| == 1 then parts[0]
    else parts[0] + sep + Join(sep, parts[1..])
  }

  /** Joining a non-empty list of parts places each part, in order, between separators:
      the first part opens the result. */
  lemma {:induction false} JoinStartsWithFirst(sep: string, parts: seq<string>)
    requires |parts| > 0
    ensures |Join(sep, parts)| >= |parts[0]|
    ensures Join(sep, parts)[..|parts[0]|] == parts[0]
  {
    if |parts| > 1 {
      var rest := sep + Join(sep, parts[1..]);
      assert Join(sep, parts) == parts[0] + rest;
    }
  }

  /** The length of a joined string is the total length of the parts plus one
      separator between each neighbouring pair. */
  function TotalLength(parts: seq<string>): nat
  {
    if |parts| == 0 then 0 else |parts[0]| + TotalLength(parts[1..])
  }

  lemma {:induction false} JoinLength(sep: string, parts: seq<string>)
    requires |parts| > 0
    ensures |Join(sep, parts)| == TotalLength(parts) + (|parts| - 1) * |sep|
  {
    if |parts| > 1 {
      JoinLength(sep, parts[1..]);
    }
  }

  /** Keeps `items[i]` exactly when `flags[i]` holds, in the order of `items`: the
      shape of a recommendation list built by one `append`/`push` per condition. */
  function Select<T>(flags: seq<bool>, items: seq<T>): (r: seq<T>)
    requires |flags| == |items|
    ensures |r| <= |items|
  {
    if |items| == 0 then []
    else (if flags[0] then [items[0]] else []) + Select(flags[1..], items[1..])
  }

  /** One conditional `append`: `acc` with `x` added at the end when `c` holds. */
  function AppendIf<T>(acc: seq<T>, c: bool, x: T): seq<T>
  {
    if c then acc + [x] else acc
  }

  /** Checking one more condition at the end appends its item exactly when it holds. */
  lemma {:induction false} SelectAppend<T>(flags: seq<bool>, items: seq<T>, f: bool, x: T)
    requires |flags| == |items|
    ensures Select(flags + [f], items + [x]) == Select(flags, items) + (if f then [x] else [])
  {
    if |items| > 0 {
      assert (flags + [f])[1..] == flags[1..] + [f];
      assert (items + [x])[1..] == items[1..] + [x];
      SelectAppend(flags[1..], items[1..], f, x);
    } else {
      assert flags + [f] == [f] && items + [x] == [x];
    }
  }

  /** The prefix form of `SelectAppend`: the list after checking condition `k`. */
  lemma SelectStep<T>(flags: seq<bool>, items: seq<T>, k: nat)
    requires |flags| == |items| && k < |items|
    ensures Select(flags[..k + 1], items[..k + 1])
            == AppendIf(Select(flags[..k], items[..k]), flags[k], items[k])
  {
    assert flags[..k + 1] == flags[..k] + [flags[k]];
    assert items[..k + 1] == items[..k] + [items[k]];
    SelectAppend(flags[..k], items[..k], flags[k], items[k]);
  }

  /** Six conditions checked one after the other: the list that six conditional
      appends build. */
  lemma SelectSix<T>(flags: seq<bool>, items: seq<T>)
    requires |flags| == 6 && |items| == 6
    ensures Select(flags, items)
            == AppendIf(AppendIf(AppendIf(AppendIf(AppendIf(AppendIf([],
                 flags[0], items[0]), flags[1], items[1]), flags[2], items[2]),
                 flags[3], items[3]), flags[4], items[4]), flags[5], items[5])
  {
    assert Select(flags[..0], items[..0]) == [];
    SelectStep(flags, items, 0);
    SelectStep(flags, items, 1);
    SelectStep(flags, items, 2);
    SelectStep(flags, items, 3);
    SelectStep(flags, items, 4);
    SelectStep(flags, items, 5);
    assert flags[..6] == flags && items[..6] == items;
  }

  /** The number of conditions that hold. */
  function CountTrue(flags: seq<bool>): nat
  {
    if |flags| == 0 then 0 else (if flags[0] then 1 else 0) + CountTrue(flags[1..])
  }

  /** One selected item per condition that holds, and so no item at all exactly when
      no condition holds. */
  lemma {:induction false} SelectLength<T>(flags: seq<bool>, items: seq<T>)
    requires |flags| == |items|
    ensures |Select(flags, items)| == CountTrue(flags)
    ensures Select(flags, items) == [] <==> forall i :: 0 <= i < |flags| ==> !flags[i]
  {
    if |items| > 0 {
      SelectLength(flags[1..], items[1..]);
      assert forall i :: 1 <= i < |flags| ==> flags[i] == flags[1..][i - 1];
    }
  }

  /** With pairwise distinct items, an item is selected exactly when its own
      condition holds. */
  lemma {:induction false} SelectMembership<T>(flags: seq<bool>, items: seq<T>, i: nat)
    requires |flags| == |items| && i < |items|
    requires forall j, k :: 0 <= j < k < |items| ==> items[j] != items[k]
    ensures items[i] in Select(flags, items) <==> flags[i]
  {
    var rest := Select(flags[1..], items[1..]);
    assert Select(flags, items) == (if flags[0] then [items[0]] else []) + rest;
    SelectSubset(flags[1..], items[1..]);
    if i == 0 {
      assert items[0] !in items[1..];
    } else {
      SelectMembership(flags[1..], items[1..], i - 1);
      assert items[1..][i - 1] == items[i];
    }
  }

  /** Every selected item is one of the items. */
  lemma {:induction false} SelectSubset<T>(flags: seq<bool>, items: seq<T>)
    requires |flags| == |items|
    ensures forall x :: x in Select(flags, items) ==> x in items
  {
    if |items| > 0 {
      SelectSubset(flags[1..], items[1..]);
    }
  }

  /** The decimal digit character for `d`. */
  function DigitChar(d: nat): char
    requires d < 10
  {
    "0123456789"[d]
  }

  /** The value of a decimal digit character; -1 for any other character. */
  function DigitValue(c: char): int
  {
    if '0' <= c <= '9' then c as int - '0' as int else -1
  }

  /** JavaScript's decimal rendering of a non-negative integer (`${n}`). */
  function NatToString(n: nat): (s: string)
    ensures |s| > 0
    ensures forall i :: 0 <= i < |s| ==> '0' <= s[i] <= '9'
  {
    if n < 10 then [DigitChar(n)] else NatToString(n / 10) + [DigitChar(n % 10)]
  }

  /** JavaScript's decimal rendering of an integer, with a leading minus sign when
      it is negative. */
  function IntToString(i: int): string
  {
    if i < 0 then "-" + NatToString(-i) else NatToString(i)
  }

  /** Reads a string of decimal digits back as a number. */
  function ParseNat(s: string): int
  {
    if |s| == 0 then 0 else ParseNat(s[..|s| - 1]) * 10 + DigitValue(s[|s| - 1])
  }

  /** Printing a number in decimal and reading it back gives the number: the
      rendering loses nothing, so different numbers print differently. */
  lemma {:induction false} ParseNatToString(n: nat)
    ensures ParseNat(NatToString(n)) == n
  {
    var s := NatToString(n);
    if n < 10 {
      assert s[..0] == [];
    } else {
      var prefix := NatToString(n / 10);
      assert s[..|s| - 1] == prefix;
      ParseNatToString(n / 10);
    }
  }

  /** The sum of a sequence of reals, taken from the front as `reduce` does. */
  function SumReals(s: seq<real>): real
  {
    if |s| == 0 then 0.0 else SumReals(s[..|s| - 1]) + s[|s| - 1]
  }
}
