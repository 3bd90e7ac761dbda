/** Identifiers of the CyberMarket universe: canonical product keys and the printed history ids. */
module Ids {
  import opened Collections
  import opened Text
  import opened Schema

  /** Entities are named by their index; `cat`, `sub` and `vendor` are the numbers the printed keys carry. */
  datatype ProductKey = ProductKey(cat: nat, sub: nat, age: nat, vendor: nat)

  function ProductKeyOf(i: nat): ProductKey
    requires i >= 1
  {
    ProductKey(i % 20, i % 100, i % PRODUCTS_PER_VENDOR, 1 + (i - 1) / PRODUCTS_PER_VENDOR)
  }

  predicate Canonical(k: ProductKey) { exists i :: 1 <= i <= PRODUCT_COUNT && k == ProductKeyOf(i) }

  /** Vendor and listing age alone tell canonical products apart. */
  lemma ProductKeyInjective(i: nat, j: nat)
    requires i >= 1 && j >= 1
    requires ProductKeyOf(i).vendor == ProductKeyOf(j).vendor && ProductKeyOf(i).age == ProductKeyOf(j).age
    ensures i == j
  {
    assert i - 1 == 4 * ((i - 1) / 4) + (i - 1) % 4;
    assert j - 1 == 4 * ((j - 1) / 4) + (j - 1) % 4;
  }

  /** Product `4 (v - 1) + line` belongs to vendor `v`. */
  lemma ProductOfVendor(v: nat, line: nat)
    requires 1 <= v && 1 <= line <= PRODUCTS_PER_VENDOR
    ensures var i := (v - 1) * PRODUCTS_PER_VENDOR + line;
            ProductKeyOf(i).vendor == v && ProductKeyOf(i).age == line % PRODUCTS_PER_VENDOR
  {
  }

  // ---------------------------------------------------------------- printed history ids

  function Pow10(k: nat): nat { if k == 0 then 1 else 10 * Pow10(k - 1) }

  function Zeros(k: nat): (s: string)
    ensures |s| == k && forall i :: 0 <= i < k ==> s[i] == '0'
  {
    seq(k, _ => '0')
  }

  /** `{n:0wd}`: at least `w` digits, never cut. */
  function Padded(n: nat, w: nat): (s: string)
    ensures IsDigits(s)
  {
    var d := Decimal(n);
    if |d| < w then Zeros(w - |d|) + d else d
  }

  function HistoryId(prefix: string, n: nat): string { prefix + "-HIST-" + Padded(n, 14) }

  /** `_history_index`: exactly fourteen digits after the prefix, or no index at all. */
  function HistoryIndex(prefix: string, text: string): Option<nat> {
    var head := prefix + "-HIST-";
    if |text| == |head| + 14 && head <= text && IsDigits(text[|head|..]) then Some(Value(text[|head|..])) else None
  }

  lemma {:induction false} DecimalLength(n: nat, k: nat)
    requires k >= 1
    ensures |Decimal(n)| <= k <==> n < Pow10(k)
  {
    if n >= 10 {
      if k == 1 {
        assert Pow10(1) == 10 * Pow10(0);
      } else {
        DecimalLength(n / 10, k - 1);
      }
    } else {
      PowPositive(k - 1);
    }
  }

  lemma {:induction false} PowPositive(k: nat)
    ensures Pow10(k) >= 1
  {
    if k > 0 { PowPositive(k - 1); }
  }

  lemma {:induction false} ValueOfPadded(k: nat, s: string)
    requires IsDigits(s)
    ensures IsDigits(Zeros(k) + s) && Value(Zeros(k) + s) == Value(s)
    decreases k + |s|
  {
    if s != [] {
      assert (Zeros(k) + s)[..|Zeros(k) + s| - 1] == Zeros(k) + s[..|s| - 1];
      ValueOfPadded(k, s[..|s| - 1]);
    } else if k > 0 {
      assert (Zeros(k) + s)[..k - 1] == Zeros(k - 1) + s;
      ValueOfPadded(k - 1, s);
    } else {
      assert Zeros(0) + s == s;
    }
  }

  /** A printed history id reads back as its index exactly when the index has at most fourteen digits. */
  lemma HistoryIdRoundTrip(prefix: string, n: nat)
    ensures HistoryIndex(prefix, HistoryId(prefix, n)) == if n < Pow10(14) then Some(n) else None
  {
    var head := prefix + "-HIST-";
    var text := HistoryId(prefix, n);
    assert text[|head|..] == Padded(n, 14) && head <= text;
    PaddedValue(n, 14);
  }

  lemma PaddedValue(n: nat, w: nat)
    requires w >= 1
    ensures |Padded(n, w)| == w <==> n < Pow10(w)
    ensures Value(Padded(n, w)) == n
  {
    var d := Decimal(n);
    DecimalLength(n, w);
    DecimalRoundTrip(n);
    if |d| < w { ValueOfPadded(w - |d|, d); }
  }
}
