/**
 * The numeric query parameters of the list routes and the `pageInfo` they
 * return. `limit` and `offset` go through JavaScript's `parseInt`, which can
 * produce `NaN`; `pageInfo` compares with JavaScript's rules, where every
 * comparison with `NaN` is false.
 */
module Pagination {
  import opened Wrappers
  import opened Strings

  /** A number as `parseInt` can produce it: an integer, or NaN. */
  datatype JsNumber = Int(i: int) | NaN

  /** The value of a digit character in base 10 or 16. */
  function DigitValue(c: char, radix: nat): (d: Option<nat>)
    requires radix == 10 || radix == 16
    ensures d.Some? ==> d.value < radix
  {
    if '0' <= c <= '9' then Some(c as nat - '0' as nat)
    else if radix == 16 && 'a' <= c <= 'f' then Some(c as nat - 'a' as nat + 10)
    else if radix == 16 && 'A' <= c <= 'F' then Some(c as nat - 'A' as nat + 10)
    else None
  }

  predicate IsDigit(c: char, radix: nat)
    requires radix == 10 || radix == 16
  {
    DigitValue(c, radix).Some?
  }

  /** The longest prefix of `s` made of digits. */
  function LeadingDigits(s: string, radix: nat): (ds: string)
    requires radix == 10 || radix == 16
    ensures |ds| <= |s| && ds == s[..|ds|]
    ensures forall i :: 0 <= i < |ds| ==> IsDigit(ds[i], radix)
    ensures |ds| < |s| ==> !IsDigit(s[|ds|], radix)
  {
    if s == [] || !IsDigit(s[0], radix) then []
    else [s[0]] + LeadingDigits(s[1..], radix)
  }

  /** The value of a string of digits, most significant first. */
  function DigitsValue(ds: string, radix: nat): nat
    requires radix == 10 || radix == 16
    requires forall i :: 0 <= i < |ds| ==> IsDigit(ds[i], radix)
  {
    if ds == [] then 0
    else
      assert IsDigit(ds[|ds| - 1], radix);
      DigitsValue(ds[..|ds| - 1], radix) * radix + DigitValue(ds[|ds| - 1], radix).value
  }

  /**
   * `parseInt(s)` without a radix: leading white space is skipped, then an
   * optional sign, then a `0x`/`0X` prefix selects base 16; the longest run
   * of digits that follows is the value, and no digit at all gives NaN.
   */
  function ParseInt(s: string): (n: JsNumber)
  {
    var t := TrimStart(s);
    var negative := t != [] && t[0] == '-';
    var unsigned := if t != [] && (t[0] == '-' || t[0] == '+') then t[1..] else t;
    var hex := |unsigned| >= 2 && unsigned[0] == '0' && (unsigned[1] == 'x' || unsigned[1] == 'X');
    var radix := if hex then 16 else 10;
    var body := if hex then unsigned[2..] else unsigned;
    var ds := LeadingDigits(body, radix);
    if ds == [] then NaN
    else if negative then Int(-(DigitsValue(ds, radix) as int))
    else Int(DigitsValue(ds, radix))
  }

  /** A query parameter read as `get(name) ? parseInt(get(name)) : fallback`. */
  function IntParam(raw: Option<string>, fallback: int): (n: JsNumber)
    ensures !TruthyOpt(raw) ==> n == Int(fallback)
    ensures TruthyOpt(raw) ==> n == ParseInt(raw.value)
  {
    if TruthyOpt(raw) then ParseInt(raw.value) else Int(fallback)
  }

  /** The decimal digits of a natural number, as `String(n)` writes them. */
  function Decimal(n: nat): (s: string)
    ensures s != [] && forall i :: 0 <= i < |s| ==> IsDigit(s[i], 10)
    ensures s[0] == '0' ==> n == 0
  {
    var last := ['0' + (n % 10) as char];
    if n < 10 then last else Decimal(n / 10) + last
  }

  lemma {:induction false} DecimalValue(n: nat)
    ensures DigitsValue(Decimal(n), 10) == n
    decreases n
  {
    var s := Decimal(n);
    if n >= 10 {
      DecimalValue(n / 10);
      assert s[..|s| - 1] == Decimal(n / 10);
    }
  }

  lemma {:induction false} AllDigitsLead(s: string, radix: nat)
    requires radix == 10 || radix == 16
    requires forall i :: 0 <= i < |s| ==> IsDigit(s[i], radix)
    ensures LeadingDigits(s, radix) == s
    decreases |s|
  {
    if s != [] {
      AllDigitsLead(s[1..], radix);
    }
  }

  /** A decimal rendering never starts a hexadecimal prefix and reads back through `LeadingDigits`. */
  lemma {:induction false} DecimalDigitsRead(n: nat)
    ensures var d := Decimal(n);
            (|d| >= 2 ==> d[0] != '0') &&
            LeadingDigits(d, 10) == d && DigitsValue(d, 10) == n
  {
    AllDigitsLead(Decimal(n), 10);
    DecimalValue(n);
  }

  /** `parseInt` reads back what `String(n)` writes for a natural number. */
  lemma {:induction false} ParseIntDecimal(n: nat)
    ensures ParseInt(Decimal(n)) == Int(n)
  {
    var d := Decimal(n);
    assert d[0] != '-' && d[0] != '+' && !IsJsWhitespace(d[0]);
    assert TrimStart(d) == d;
    DecimalDigitsRead(n);
  }

  /** `parseInt` reads back what `String(-n)` writes for a negative number. */
  lemma {:induction false} ParseIntNegativeDecimal(n: nat)
    requires n > 0
    ensures ParseInt("-" + Decimal(n)) == Int(-(n as int))
  {
    var s := "-" + Decimal(n);
    assert !IsJsWhitespace(s[0]);
    assert TrimStart(s) == s;
    assert s[1..] == Decimal(n);
    DecimalDigitsRead(n);
  }

  /** `pageInfo`: a next page when `offset + limit < totalCount`, a previous one when `offset > 0`. */
  datatype PageInfo = PageInfo(hasNextPage: bool, hasPreviousPage: bool, totalCount: nat)

  function MakePageInfo(offset: JsNumber, limit: JsNumber, totalCount: nat): (p: PageInfo)
    ensures p.totalCount == totalCount
    ensures p.hasNextPage <==> offset.Int? && limit.Int? && offset.i + limit.i < totalCount
    ensures p.hasPreviousPage <==> offset.Int? && offset.i > 0
  {
    PageInfo(offset.Int? && limit.Int? && offset.i + limit.i < totalCount, offset.Int? && offset.i > 0, totalCount)
  }

  /** `skip: offset, take: limit` over the matching rows, for a non-negative offset and limit. */
  function Window<T>(rows: seq<T>, offset: nat, limit: nat): (page: seq<T>)
    ensures |page| <= limit
    ensures offset <= |rows| ==> page == rows[offset..if offset + limit <= |rows| then offset + limit else |rows|]
    ensures offset > |rows| ==> page == []
  {
    if offset > |rows| then [] else rows[offset..if offset + limit <= |rows| then offset + limit else |rows|]
  }

  /** The rows in the opposite order. */
  function Reverse<T>(rows: seq<T>): (r: seq<T>)
    ensures |r| == |rows| && forall i :: 0 <= i < |rows| ==> r[i] == rows[|rows| - 1 - i]
  {
    seq(|rows|, i requires 0 <= i < |rows| => rows[|rows| - 1 - i])
  }

  /** `skip: offset, take: -n`: the last n rows before the `offset` rows skipped from the end. */
  function FromEnd<T>(rows: seq<T>, offset: nat, n: nat): (page: seq<T>)
    ensures var stop := if offset <= |rows| then |rows| - offset else 0;
            |page| == (if stop >= n then n else stop) && page == rows[stop - |page|..stop]
  {
    var stop := if offset <= |rows| then |rows| - offset else 0;
    rows[if stop >= n then stop - n else 0..stop]
  }

  /**
   * A negative `take` is served by reversing the order, skipping and taking
   * as usual, and reversing the page back.
   */
  lemma FromEndIsReversedWindow<T>(rows: seq<T>, offset: nat, n: nat)
    ensures FromEnd(rows, offset, n) == Reverse(Window(Reverse(rows), offset, n))
  {
    var page, w := FromEnd(rows, offset, n), Window(Reverse(rows), offset, n);
    assert |page| == |w|;
    forall j | 0 <= j < |page|
      ensures page[j] == Reverse(w)[j]
    {
      assert w[|w| - 1 - j] == Reverse(rows)[offset + |w| - 1 - j];
    }
  }

  /** Where the page of `skip: offset, take: limit` starts in the rows. */
  function TakeStart(count: nat, offset: nat, limit: int): nat {
    if limit >= 0 then (if offset <= count then offset else count)
    else
      var stop := if offset <= count then count - offset else 0;
      if stop >= -limit then stop + limit else 0
  }

  /** `skip: offset, take: limit` over the rows: a window from the start, or, for a negative limit, from the end. */
  function Take<T>(rows: seq<T>, offset: nat, limit: int): (page: seq<T>)
    ensures limit >= 0 ==> page == Window(rows, offset, limit)
    ensures limit < 0 ==> page == FromEnd(rows, offset, -limit)
    ensures TakeStart(|rows|, offset, limit) + |page| <= |rows|
    ensures page == rows[TakeStart(|rows|, offset, limit)..TakeStart(|rows|, offset, limit) + |page|]
  {
    if limit >= 0 then Window(rows, offset, limit) else FromEnd(rows, offset, -limit)
  }

  /** A page holds only rows of the table it was taken from. */
  lemma {:induction false} TakeWithin<T>(rows: seq<T>, offset: nat, limit: int)
    ensures forall x :: x in Take(rows, offset, limit) ==> x in rows
  {
    var page := Take(rows, offset, limit);
    var lo := TakeStart(|rows|, offset, limit);
    forall x | x in page
      ensures x in rows
    {
      var i :| 0 <= i < |page| && page[i] == x;
      assert page[i] == rows[lo + i];
    }
  }

  /** `hasNextPage` holds exactly when rows remain after the page that was returned. */
  lemma NextPageIffRowsRemain<T>(rows: seq<T>, offset: nat, limit: nat)
    ensures MakePageInfo(Int(offset), Int(limit), |rows|).hasNextPage <==> offset + |Window(rows, offset, limit)| < |rows|
  {
  }

  /** Consecutive windows tile the rows: the page at `offset` followed by the page at `offset + limit`. */
  lemma {:induction false} WindowsTile<T>(rows: seq<T>, offset: nat, limit: nat)
    requires offset + 2 * limit <= |rows|
    ensures Window(rows, offset, limit) + Window(rows, offset + limit, limit) == Window(rows, offset, 2 * limit)
  {
    assert rows[offset..offset + limit] + rows[offset + limit..offset + 2 * limit] == rows[offset..offset + 2 * limit];
  }
}
