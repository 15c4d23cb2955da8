/**
 * Document numbers of sales: a series prefix (`B001-` for receipts, `F001-`
 * for invoices) followed by a sequence number written in decimal and
 * left-padded with zeros to eight digits. The sequence number is the count of
 * earlier sales of the same document type plus one; it is derived from the
 * history, not kept as a counter.
 */
module DocumentNumbers {
  import opened Types
  import opened Seqs

  predicate IsDigit(c: char) { '0' <= c <= '9' }

  function DigitChar(d: nat): (c: char)
    requires d < 10
    ensures IsDigit(c)
  {
    (('0' as int) + d) as char
  }

  function DigitValue(c: char): nat
    requires IsDigit(c)
  {
    (c as int) - ('0' as int)
  }

  /** `n.toString()` for a non-negative integer. */
  function Decimal(n: nat): (r: string)
    ensures |r| >= 1
    ensures forall i :: 0 <= i < |r| ==> IsDigit(r[i])
    decreases n
  {
    if n < 10 then [DigitChar(n)] else Decimal(n / 10) + [DigitChar(n % 10)]
  }

  /** The number a string of decimal digits denotes. */
  function DigitsValue(s: string): nat
    requires forall i :: 0 <= i < |s| ==> IsDigit(s[i])
    decreases |s|
  {
    if s == [] then 0 else 10 * DigitsValue(s[..|s| - 1]) + DigitValue(s[|s| - 1])
  }

  lemma {:induction false} DecimalRoundTrip(n: nat)
    ensures DigitsValue(Decimal(n)) == n
    decreases n
  {
    if n >= 10 {
      DecimalRoundTrip(n / 10);
      var r := Decimal(n);
      assert r[..|r| - 1] == Decimal(n / 10);
    }
  }

  function Pow10(k: nat): nat { if k == 0 then 1 else 10 * Pow10(k - 1) }

  /** A number below 10^k has at most k digits. */
  lemma {:induction false} DecimalLength(n: nat, k: nat)
    requires 1 <= k && n < Pow10(k)
    ensures |Decimal(n)| <= k
    decreases k
  {
    if n >= 10 {
      DecimalLength(n / 10, k - 1);
    }
  }

  function Zeros(k: nat): string { seq(k, _ => '0') }

  /** `s.padStart(width, '0')`: never truncates a longer string. */
  function PadStart(s: string, width: nat): (r: string)
    ensures |r| == if |s| >= width then |s| else width
    ensures r[|r| - |s|..] == s
    ensures forall i :: 0 <= i < |r| - |s| ==> r[i] == '0'
  {
    if |s| >= width then s else Zeros(width - |s|) + s
  }

  lemma {:induction false} ZerosValue(k: nat)
    ensures DigitsValue(Zeros(k)) == 0
    decreases k
  {
    if k > 0 {
      assert Zeros(k)[..k - 1] == Zeros(k - 1);
      ZerosValue(k - 1);
    }
  }

  /** Leading zeros do not change the value of a digit string. */
  lemma {:induction false} LeadingZeros(k: nat, s: string)
    requires forall i :: 0 <= i < |s| ==> IsDigit(s[i])
    ensures DigitsValue(Zeros(k) + s) == DigitsValue(s)
    decreases |s|
  {
    if s == [] {
      assert Zeros(k) + s == Zeros(k);
      ZerosValue(k);
    } else {
      var z := Zeros(k) + s;
      assert z[..|z| - 1] == Zeros(k) + s[..|s| - 1];
      LeadingZeros(k, s[..|s| - 1]);
    }
  }

  function SeriesPrefix(t: DocumentType): string {
    match t
    case Boleta => "B001-"
    case Factura => "F001-"
  }

  /** The document number of the `n`-th sale of type `t`. */
  function DocumentNumber(t: DocumentType, n: nat): (r: string)
    ensures |r| >= 13
    ensures r[..5] == SeriesPrefix(t)
    ensures forall i :: 5 <= i < |r| ==> IsDigit(r[i])
  {
    var digits := PadStart(Decimal(n), 8);
    assert (SeriesPrefix(t) + digits)[..5] == SeriesPrefix(t);
    SeriesPrefix(t) + digits
  }

  /** Below 10^8 the number has exactly the `XXXX-dddddddd` shape. */
  lemma DocumentNumberWidth(t: DocumentType, n: nat)
    requires n < 100000000
    ensures |DocumentNumber(t, n)| == 13
  {
    assert Pow10(8) == 100000000;
    DecimalLength(n, 8);
  }

  /** Reads a document number back into its type and sequence number. */
  function ParseDocumentNumber(s: string): Option<(DocumentType, nat)>
  {
    if |s| >= 5 && (s[..5] == "B001-" || s[..5] == "F001-")
       && forall i :: 5 <= i < |s| ==> IsDigit(s[i])
    then Some((if s[0] == 'B' then Boleta else Factura, DigitsValue(s[5..])))
    else None
  }

  lemma ParseDocumentNumberRoundTrip(t: DocumentType, n: nat)
    ensures ParseDocumentNumber(DocumentNumber(t, n)) == Some((t, n))
  {
    var r := DocumentNumber(t, n);
    var d := Decimal(n);
    assert r[5..] == PadStart(d, 8);
    assert r[0] == r[..5][0];
    if |d| < 8 {
      LeadingZeros(8 - |d|, d);
    }
    DecimalRoundTrip(n);
  }

  /** Distinct (type, sequence number) pairs never share a document number. */
  lemma DocumentNumberInjective(t1: DocumentType, n1: nat, t2: DocumentType, n2: nat)
    requires DocumentNumber(t1, n1) == DocumentNumber(t2, n2)
    ensures t1 == t2 && n1 == n2
  {
    ParseDocumentNumberRoundTrip(t1, n1);
    ParseDocumentNumberRoundTrip(t2, n2);
  }

  function IsOfType(t: DocumentType): Sale -> bool { (s: Sale) => s.documentType == t }

  /** The number of sales of type `t` in the history. */
  function CountOfType(sales: seq<Sale>, t: DocumentType): nat {
    |Filter(sales, IsOfType(t))|
  }

  /** The number the next sale of type `t` receives. */
  function NextDocumentNumber(sales: seq<Sale>, t: DocumentType): string {
    DocumentNumber(t, CountOfType(sales, t) + 1)
  }

  lemma CountOfTypeAppend(sales: seq<Sale>, s: Sale, t: DocumentType)
    ensures CountOfType(sales + [s], t) == CountOfType(sales, t) + (if s.documentType == t then 1 else 0)
  {
    assert (sales + [s])[..|sales|] == sales;
  }

  /** Posting a sale of one type leaves the next number of the other type as it was. */
  lemma OtherSeriesUnaffected(sales: seq<Sale>, s: Sale, t: DocumentType)
    requires s.documentType != t
    ensures NextDocumentNumber(sales + [s], t) == NextDocumentNumber(sales, t)
  {
    CountOfTypeAppend(sales, s, t);
  }

  /** Posting a sale of type `t` advances the sequence number of `t` by one. */
  lemma SameSeriesAdvances(sales: seq<Sale>, s: Sale)
    ensures NextDocumentNumber(sales + [s], s.documentType)
            == DocumentNumber(s.documentType, CountOfType(sales, s.documentType) + 2)
  {
    CountOfTypeAppend(sales, s, s.documentType);
  }

  /** Every sale carries the number its position among same-type sales gives it. */
  predicate WellNumbered(sales: seq<Sale>) {
    forall i :: 0 <= i < |sales| ==>
      sales[i].documentNumber == NextDocumentNumber(sales[..i], sales[i].documentType)
  }

  lemma WellNumberedAppend(sales: seq<Sale>, s: Sale)
    requires WellNumbered(sales)
    requires s.documentNumber == NextDocumentNumber(sales, s.documentType)
    ensures WellNumbered(sales + [s])
  {
    var all := sales + [s];
    forall i | 0 <= i < |all|
      ensures all[i].documentNumber == NextDocumentNumber(all[..i], all[i].documentType)
    {
      assert all[..i] == sales[..i] || i == |sales|;
      if i == |sales| {
        assert all[..i] == sales;
      }
    }
  }

  /** A sale of type `t` at position `i` is counted in every later prefix. */
  lemma CountOfTypeGrows(sales: seq<Sale>, i: nat, j: nat)
    requires i < j <= |sales|
    ensures CountOfType(sales[..j], sales[i].documentType) >= CountOfType(sales[..i], sales[i].documentType) + 1
  {
    var t := sales[i].documentType;
    var a, b := sales[..i + 1], sales[i + 1..j];
    assert sales[..j] == a + b;
    assert a == sales[..i] + [sales[i]];
    FilterConcat(a, b, IsOfType(t));
    CountOfTypeAppend(sales[..i], sales[i], t);
  }

  /** In a well-numbered history no two sales share a document number. */
  lemma WellNumberedDistinct(sales: seq<Sale>, i: nat, j: nat)
    requires WellNumbered(sales)
    requires i < j < |sales|
    ensures sales[i].documentNumber != sales[j].documentNumber
  {
    var ti, tj := sales[i].documentType, sales[j].documentType;
    var ni, nj := CountOfType(sales[..i], ti) + 1, CountOfType(sales[..j], tj) + 1;
    assert sales[i].documentNumber == DocumentNumber(ti, ni);
    assert sales[j].documentNumber == DocumentNumber(tj, nj);
    if ti == tj {
      CountOfTypeGrows(sales, i, j);
    }
    if DocumentNumber(ti, ni) == DocumentNumber(tj, nj) {
      DocumentNumberInjective(ti, ni, tj, nj);
    }
  }

  /** The first receipt of a history is `B001-00000001`; the first invoice `F001-00000001`. */
  lemma FirstNumbers()
    ensures DocumentNumber(Boleta, 1) == "B001-00000001"
    ensures DocumentNumber(Factura, 1) == "F001-00000001"
  {
    assert Decimal(1) == "1";
    assert Zeros(7) == "0000000";
  }
}
