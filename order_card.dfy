/**
 * `OrderCard`: one order of the buyer's history, with a line per item and a
 * details panel whose phone number is formatted as ddd-dddd-dddd.
 */
module OrderCard {
  import opened Util
  import OrderStatusBadge

  const NoInfo := "정보 없음"

  predicate IsDigit(c: char)
  {
    '0' <= c <= '9'
  }

  /** `phone.replace(/[^0-9]/g, '')`: the digits of the text, in order. */
  function Digits(s: string): (r: string)
    ensures AllDigits(r)
    ensures '-' !in r
    ensures |r| <= |s|
  {
    var r := Filter(s, IsDigit);
    FilterAllPass(s, IsDigit);
    r
  }

  /** The first eleven digits grouped 3-4-4. */
  function Hyphenate(d: string): (r: string)
    requires |d| == 11
    ensures |r| == 13 && r[3] == '-' && r[8] == '-'
    ensures r[..3] == d[..3] && r[4..8] == d[3..7] && r[9..] == d[7..]
  {
    d[..3] + "-" + d[3..7] + "-" + d[7..]
  }

  /**
   * The second replace on a digits-only string: the leftmost match of
   * `(\d{3})(\d{4})(\d{4})` starts at index 0 whenever there are eleven or
   * more digits, and there is no match otherwise.
   */
  function GroupDigits(d: string): (r: string)
    requires AllDigits(d)
  {
    if |d| >= 11 then Hyphenate(d[..11]) + d[11..] else d
  }

  /** `formatPhone`; a missing or empty phone reads '정보 없음'. */
  function FormatPhone(phone: Option<string>): (r: string)
    ensures phone.None? || phone.value == "" ==> r == NoInfo
    ensures phone.Some? && phone.value != "" && |Digits(phone.value)| < 11 ==> r == Digits(phone.value)
    ensures phone.Some? && phone.value != "" && |Digits(phone.value)| >= 11 ==>
      r == Hyphenate(Digits(phone.value)[..11]) + Digits(phone.value)[11..]
  {
    if phone.None? || phone.value == "" then NoInfo
    else GroupDigits(Digits(phone.value))
  }

  /** Exactly eleven digits come out as ddd-dddd-dddd. */
  lemma ElevenDigitsShape(phone: string)
    requires phone != "" && |Digits(phone)| == 11
    ensures |FormatPhone(Some(phone))| == 13
    ensures FormatPhone(Some(phone))[3] == '-' && FormatPhone(Some(phone))[8] == '-'
  {
    assert Digits(phone)[11..] == [];
  }

  /** Removing the two hyphens of a grouped number gives back its eleven characters. */
  lemma HyphenateRemoves(e: string)
    requires |e| == 11 && '-' !in e
    ensures RemoveChar(Hyphenate(e), '-') == e
  {
    var a, b, c := e[..3], e[3..7], e[7..];
    assert '-' !in a && '-' !in b && '-' !in c;
    RemoveCharAbsent(a, '-');
    RemoveCharAbsent(b, '-');
    RemoveCharAbsent(c, '-');
    assert RemoveChar("-", '-') == [];
    RemoveCharAppend(a, "-", '-');
    var ah := a + "-";
    assert RemoveChar(ah, '-') == a;
    RemoveCharAppend(ah, b, '-');
    var ahb := ah + b;
    assert RemoveChar(ahb, '-') == a + b;
    RemoveCharAppend(ahb, "-", '-');
    var ahbh := ahb + "-";
    assert RemoveChar(ahbh, '-') == a + b;
    RemoveCharAppend(ahbh, c, '-');
    assert Hyphenate(e) == ahbh + c;
    assert a + b + c == e;
  }

  /** Taking the hyphens back out of a formatted number gives back its digits. */
  lemma {:induction false} FormatPhoneRoundTrip(phone: string)
    requires phone != ""
    ensures RemoveChar(FormatPhone(Some(phone)), '-') == Digits(phone)
  {
    var d := Digits(phone);
    if |d| >= 11 {
      var e, rest := d[..11], d[11..];
      assert '-' !in e && '-' !in rest;
      HyphenateRemoves(e);
      RemoveCharAbsent(rest, '-');
      RemoveCharAppend(Hyphenate(e), rest, '-');
      assert FormatPhone(Some(phone)) == Hyphenate(e) + rest;
      assert e + rest == d;
    } else {
      RemoveCharAbsent(d, '-');
    }
  }

  /**
   * A cell of an item line as rendered: a number, the dash the price line
   * shows for a non-number, or the `NaN` JavaScript prints for an
   * arithmetic on `undefined`.
   */
  datatype Cell = Amount(n: int) | Dash | NotANumber

  /** `typeof item.productPrice === 'number' ? item.productPrice : '-'`; `None` is a missing price. */
  function PriceCell(price: Option<int>): (c: Cell)
    ensures c.Dash? <==> price.None?
    ensures !c.NotANumber?
  {
    match price
    case Some(p) => Amount(p)
    case None => Dash
  }

  /** `item.productPrice * item.productQuantity`, with no guard: a missing operand makes it `NaN`. */
  function TotalCell(price: Option<int>, quantity: Option<int>): (c: Cell)
    ensures c.NotANumber? <==> price.None? || quantity.None?
    ensures !c.Dash?
  {
    if price.Some? && quantity.Some? then Amount(price.value * quantity.value) else NotANumber
  }

  /**
   * The two lines of an item agree when the price and quantity are there: the
   * total shown is the price shown times the quantity, zero exactly when one
   * of them is zero, and of the price's sign for a positive quantity.
   */
  lemma TotalAgreesWithPrice(price: int, quantity: int)
    ensures TotalCell(Some(price), Some(quantity)) == Amount(PriceCell(Some(price)).n * quantity)
    ensures TotalCell(Some(price), Some(quantity)).n == 0 <==> price == 0 || quantity == 0
    ensures quantity > 0 ==> (TotalCell(Some(price), Some(quantity)).n > 0 <==> price > 0)
  {
  }

  /**
   * A missing price is rendered inconsistently: the price line shows a dash,
   * the total line shows `NaN`, whatever the quantity.
   */
  lemma MissingPriceShowsNaN(quantity: Option<int>)
    ensures PriceCell(None) == Dash
    ensures TotalCell(None, quantity) == NotANumber
  {
  }

  /** The status each item's badge shows: the order's status, or 'PENDING' when it is missing or empty. */
  function ItemBadgeStatus(orderStatus: Option<string>): (r: string)
    ensures orderStatus.Some? && orderStatus.value != "" ==> r == orderStatus.value
    ensures orderStatus.None? || orderStatus.value == "" ==> r == "PENDING"
  {
    if orderStatus.Some? && orderStatus.value != "" then orderStatus.value else "PENDING"
  }

  /** An item of an order with no status looks exactly like one of a PENDING order. */
  lemma MissingStatusBadge()
    ensures OrderStatusBadge.Variant(ItemBadgeStatus(None)) == OrderStatusBadge.Variant("PENDING")
    ensures OrderStatusBadge.BadgeText(ItemBadgeStatus(None)) == "PENDING"
  {
  }
}
