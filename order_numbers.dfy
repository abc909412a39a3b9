/** generateOrderNumber: `ORD-` + YYYYMMDD + `-` + the day's order count plus one, padded
    to four digits. The clock is a parameter; the count comes from the orders table. */
module OrderNumbers {
  import opened Schema
  import SeqUtil

  predicate IsDigit(c: char) { '0' <= c <= '9' }

  predicate AllDigits(s: string) { forall i :: 0 <= i < |s| ==> IsDigit(s[i]) }

  function DigitChar(d: nat): (c: char)
    requires d < 10
    ensures IsDigit(c) && (c as int) - ('0' as int) == d
  {
    (('0' as int) + d) as char
  }

  /** `String(n)` for a natural number: its decimal digits, without leading zeros. */
  function Decimal(n: nat): (s: string)
    ensures |s| >= 1 && AllDigits(s)
    ensures n >= 10 ==> s[0] != '0'
    decreases n
  {
    if n < 10 then [DigitChar(n)] else Decimal(n / 10) + [DigitChar(n % 10)]
  }

  /** The number a string of decimal digits denotes. */
  function DecimalValue(s: string): nat
    requires AllDigits(s)
  {
    if s == [] then 0
    else DecimalValue(s[..|s| - 1]) * 10 + ((s[|s| - 1] as int) - ('0' as int))
  }

  /** `s.padStart(width, fill)`: fill characters on the left up to `width`; never truncates. */
  function PadStart(s: string, width: nat, fill: char): string
    decreases width - |s|
  {
    if |s| < width then PadStart([fill] + s, width, fill) else s
  }

  /** The padded string is `s` preceded by just enough fill characters. */
  lemma {:induction false} PadStartShape(s: string, width: nat, fill: char)
    ensures var r := PadStart(s, width, fill);
      && |r| == (if |s| < width then width else |s|)
      && r[|r| - |s|..] == s
      && forall i :: 0 <= i < |r| - |s| ==> r[i] == fill
    decreases width - |s|
  {
    if |s| < width {
      var t := [fill] + s;
      PadStartShape(t, width, fill);
      var r := PadStart(s, width, fill);
      assert r[|r| - |t|..] == t;
      assert r[|r| - |s|..] == t[1..];
      assert r[|r| - |t|] == fill;
    }
  }

  function Pad(n: nat, width: nat): (s: string)
    ensures AllDigits(s)
  {
    PadStartShape(Decimal(n), width, '0');
    var r := PadStart(Decimal(n), width, '0');
    assert forall i :: |r| - |Decimal(n)| <= i < |r| ==> r[i] == Decimal(n)[i - (|r| - |Decimal(n)|)];
    r
  }

  /** `ORD-YYYYMMDD-`: the part of the number fixed by the day. */
  function DayPrefix(today: Date): string {
    "ORD-" + Decimal(today.year) + Pad(today.month, 2) + Pad(today.day, 2) + "-"
  }

  function OrderNumber(today: Date, ordersToday: nat): string {
    DayPrefix(today) + Pad(ordersToday + 1, 4)
  }

  /** The orders created on day `d`: the `createdAt` range query of generateOrderNumber. */
  function OrdersOn(orders: seq<Order>, d: Date): nat {
    SeqUtil.Count(orders, (o: Order) => o.createdOn == d)
  }

  lemma {:induction false} DecimalRoundTrip(n: nat)
    ensures DecimalValue(Decimal(n)) == n
    decreases n
  {
    if n >= 10 {
      var s := Decimal(n);
      assert s[..|s| - 1] == Decimal(n / 10);
      DecimalRoundTrip(n / 10);
    }
  }

  lemma {:induction false} LeadingZeros(s: string, z: nat)
    requires AllDigits(s)
    ensures AllDigits(seq(z, _ => '0') + s)
    ensures DecimalValue(seq(z, _ => '0') + s) == DecimalValue(s)
    decreases |s|, z
  {
    var zs := seq(z, _ => '0');
    if s == [] {
      assert zs + s == zs;
      if z > 0 {
        assert zs[..z - 1] == seq(z - 1, _ => '0') + [];
        assert zs[z - 1] == '0';
        LeadingZeros([], z - 1);
      }
    } else {
      assert (zs + s)[..|zs + s| - 1] == zs + s[..|s| - 1];
      LeadingZeros(s[..|s| - 1], z);
    }
  }

  /** Zero padding does not change the number: the count can be read back from the padding. */
  lemma PadValue(n: nat, width: nat)
    ensures DecimalValue(Pad(n, width)) == n
  {
    var d := Decimal(n);
    var r := Pad(n, width);
    PadStartShape(d, width, '0');
    var z := |r| - |d|;
    assert r == seq(z, _ => '0') + d;
    LeadingZeros(d, z);
    DecimalRoundTrip(n);
  }

  lemma PrefixCancel(p: string, a: string, b: string)
    requires p + a == p + b
    ensures a == b
  {
    assert a == (p + a)[|p|..];
    assert b == (p + b)[|p|..];
  }

  /** Within one day, distinct counts give distinct order numbers: no collisions. */
  lemma OrderNumberInjective(today: Date, m: nat, n: nat)
    requires OrderNumber(today, m) == OrderNumber(today, n)
    ensures m == n
  {
    var a, b := Pad(m + 1, 4), Pad(n + 1, 4);
    PrefixCancel(DayPrefix(today), a, b);
    PadValue(m + 1, 4);
    PadValue(n + 1, 4);
    assert DecimalValue(a) == m + 1 && DecimalValue(b) == n + 1;
  }

  /** The first order of a day gets sequence number 0001. */
  lemma FirstOrderOfTheDay(today: Date)
    ensures OrderNumber(today, 0) == DayPrefix(today) + "0001"
  {
    assert Decimal(1) == "1";
    assert ['0'] + "1" == "01" && ['0'] + "01" == "001" && ['0'] + "001" == "0001";
    assert PadStart("1", 4, '0') == PadStart("01", 4, '0') == PadStart("001", 4, '0') == PadStart("0001", 4, '0');
  }

  /** One more order on day `d` raises that day's count by one; other days keep theirs. */
  lemma {:induction false} OrdersOnAppend(orders: seq<Order>, o: Order, d: Date)
    ensures OrdersOn(orders + [o], d) == OrdersOn(orders, d) + (if o.createdOn == d then 1 else 0)
  {
    if orders == [] {
      assert [o][1..] == [];
    } else {
      assert (orders + [o])[1..] == orders[1..] + [o];
      OrdersOnAppend(orders[1..], o, d);
    }
  }
}
