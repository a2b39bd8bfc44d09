/**
 * The date column of the shipment history table: how a stored `chulha_dt`
 * (`YYYYMMDD`) is displayed, and how two rows are ordered by it.
 */
module DateColumn {

  function Min(a: nat, b: nat): nat {
    if a <= b then a else b
  }

  /** `s.slice(i, j)` for non-negative bounds: both are clamped to the length. */
  function Slice(s: string, i: nat, j: nat): (r: string)
    ensures |r| == if Min(i, |s|) <= Min(j, |s|) then Min(j, |s|) - Min(i, |s|) else 0
    ensures forall k :: 0 <= k < |r| ==> r[k] == s[Min(i, |s|) + k]
  {
    var a, b := Min(i, |s|), Min(j, |s|);
    if a <= b then s[a..b] else ""
  }

  /**
   * The column's `render`: an empty (falsy) text is shown as it is, any other
   * text as `slice(0,4) + "-" + slice(4,6) + "-" + slice(6,8)`.
   */
  function RenderDate(text: string): (r: string)
    ensures r == "" <==> text == ""
    ensures text != "" ==> |r| == Min(|text|, 8) + 2
  {
    if text == "" then text
    else Slice(text, 0, 4) + "-" + Slice(text, 4, 6) + "-" + Slice(text, 6, 8)
  }

  /** The stored form of a displayed `YYYY-MM-DD` date: the dashes taken out. */
  function CompactDate(shown: string): string
    requires |shown| == 10
  {
    shown[..4] + shown[5..7] + shown[8..]
  }

  /** An eight-character date becomes `YYYY-MM-DD`, and taking the dashes out gives it back. */
  lemma RenderEightChars(text: string)
    requires |text| == 8
    ensures RenderDate(text) == text[..4] + "-" + text[4..6] + "-" + text[6..]
    ensures |RenderDate(text)| == 10 && RenderDate(text)[4] == '-' && RenderDate(text)[7] == '-'
    ensures CompactDate(RenderDate(text)) == text
  {
    var r := RenderDate(text);
    assert r[..4] == text[..4];
    assert r[5..7] == text[4..6];
    assert r[8..] == text[6..];
    assert text == text[..4] + text[4..6] + text[6..];
  }

  /** Characters after the eighth are never shown. */
  lemma RenderIgnoresTail(text: string)
    requires |text| >= 8
    ensures RenderDate(text) == RenderDate(text[..8])
  {
  }

  /**
   * For any non-empty text, the shown value is the text's first (at most) eight
   * characters with a dash put after the fourth and after the sixth: taking the
   * two dashes out gives `text[..8]` (the whole text when it is shorter).
   */
  lemma RenderKeepsPrefix(text: string)
    requires text != ""
    ensures var r, a, b := RenderDate(text), Min(|text|, 4), Min(|text|, 6) + 1;
      && b < |r| && r[a] == '-' && r[b] == '-'
      && r[..a] + r[a + 1..b] + r[b + 1..] == text[..Min(|text|, 8)]
  {
  }

  /**
   * The column's `sorter`, `a.localeCompare(b)`, as code-unit lexicographic
   * order: negative, zero or positive.
   */
  function CompareDates(a: string, b: string): (r: int)
    ensures -1 <= r <= 1
    ensures r == 0 <==> a == b
    decreases |a|
  {
    if a == [] && b == [] then 0
    else if a == [] then -1
    else if b == [] then 1
    else if a[0] < b[0] then -1
    else if a[0] > b[0] then 1
    else CompareDates(a[1..], b[1..])
  }

  /** Swapping the rows flips the comparison. */
  lemma {:induction false} CompareAntisymmetric(a: string, b: string)
    ensures CompareDates(b, a) == -CompareDates(a, b)
    decreases |a|
  {
    if a != [] && b != [] && a[0] == b[0] {
      CompareAntisymmetric(a[1..], b[1..]);
    }
  }

  /** The comparison is a transitive order, so the sort is well defined. */
  lemma {:induction false} CompareTransitive(a: string, b: string, c: string)
    requires CompareDates(a, b) < 0 && CompareDates(b, c) < 0
    ensures CompareDates(a, c) < 0
    decreases |a|
  {
    if a != [] && b != [] && c != [] && a[0] == b[0] && b[0] == c[0] {
      CompareTransitive(a[1..], b[1..], c[1..]);
    }
  }

  predicate IsDigit(c: char) {
    '0' <= c <= '9'
  }

  predicate AllDigits(s: string) {
    forall i :: 0 <= i < |s| ==> IsDigit(s[i])
  }

  function Pow10(n: nat): (r: nat)
    ensures r >= 1
  {
    if n == 0 then 1 else 10 * Pow10(n - 1)
  }

  /** The number a digit string denotes, most significant digit first. */
  function DigitsValue(s: string): (r: nat)
    requires AllDigits(s)
    ensures r < Pow10(|s|)
  {
    if s == [] then 0
    else
      var d, p := s[0] as int - '0' as int, Pow10(|s| - 1);
      var rest := DigitsValue(s[1..]);
      LeadingDigitBound(d, p, rest);
      d * p + rest
  }

  /**
   * For digit strings of one length, string order is numeric order: sorting
   * `YYYYMMDD` texts as strings sorts them chronologically.
   */
  lemma {:induction false} CompareIsNumeric(a: string, b: string)
    requires |a| == |b| && AllDigits(a) && AllDigits(b)
    ensures CompareDates(a, b) < 0 <==> DigitsValue(a) < DigitsValue(b)
    ensures CompareDates(a, b) == 0 <==> DigitsValue(a) == DigitsValue(b)
    decreases |a|
  {
    if a != [] {
      var p := Pow10(|a| - 1);
      var da, db := a[0] as int - '0' as int, b[0] as int - '0' as int;
      var ra, rb := DigitsValue(a[1..]), DigitsValue(b[1..]);
      assert DigitsValue(a) == da * p + ra;
      assert DigitsValue(b) == db * p + rb;
      if da < db {
        assert (da + 1) * p <= db * p by { MulMonotone(da + 1, db, p); }
        assert da * p + ra < (da + 1) * p;
      } else if da > db {
        assert (db + 1) * p <= da * p by { MulMonotone(db + 1, da, p); }
        assert db * p + rb < (db + 1) * p;
      } else {
        CompareIsNumeric(a[1..], b[1..]);
      }
    }
  }

  /** A leading digit times its place value plus a smaller remainder stays below the next place value. */
  lemma LeadingDigitBound(d: int, p: nat, rest: nat)
    requires 0 <= d <= 9 && rest < p
    ensures d * p + rest < 10 * p
  {
    MulMonotone(d + 1, 10, p);
  }

  lemma MulMonotone(x: int, y: int, p: nat)
    requires x <= y
    ensures x * p <= y * p
  {
  }
}
