/** The confirmation page's reading of its query string:
    `parseInt(searchParams.get('items') || '1')` and
    `parseInt(searchParams.get('total') || '4999')`, and the round trip with
    the location the checkout page builds. */
module Confirmation {
  import opened Js
  import opened JsNumber
  import opened SearchParams
  import Checkout

  const DefaultItems := "1"
  const DefaultTotal := "4999"

  /** The two numbers shown; `None` is `NaN`. */
  datatype Summary = Summary(items: Option<int>, total: Option<int>)

  /** `param || fallback` for a query value (`null` and `""` are falsy). */
  function ParamOr(param: Option<string>, fallback: string): string {
    if IsSet(param) then param.value else fallback
  }

  /** `parseInt(param || fallback)`. */
  function ReadNumber(param: Option<string>, fallback: string): Option<int> {
    ParseInt(ParamOr(param, fallback))
  }

  /** What the page reads from a query string. */
  function ReadSummary(query: string): Summary {
    Summary(ReadNumber(Get(query, "items"), DefaultItems),
            ReadNumber(Get(query, "total"), DefaultTotal))
  }

  lemma ParseDefaults()
    ensures ParseInt(DefaultItems) == Some(1)
    ensures ParseInt(DefaultTotal) == Some(4999)
  {
    assert NatToString(1) == DefaultItems;
    assert NatToString(4) == "4";
    assert NatToString(49) == "49";
    assert NatToString(499) == "499";
    assert NatToString(4999) == DefaultTotal;
    ParseIntToString(1);
    ParseIntToString(4999);
  }

  /** A missing or empty `items` reads as 1, a missing or empty `total` as
      4999, each whatever the other parameter holds. */
  lemma Defaults(query: string)
    ensures !IsSet(Get(query, "items")) ==> ReadSummary(query).items == Some(1)
    ensures !IsSet(Get(query, "total")) ==> ReadSummary(query).total == Some(4999)
  {
    ParseDefaults();
  }

  /** A parameter written in decimal digits reads as the number it spells. */
  lemma DigitParameter(query: string, name: string)
    requires name == "items" || name == "total"
    requires Get(query, name).Some?
    requires var v := Get(query, name).value;
             |v| > 0 && forall i :: 0 <= i < |v| ==> IsDecimalDigit(v[i])
    ensures name == "items" ==> ReadSummary(query).items == Some(DigitsValue(Get(query, name).value, false) as int)
    ensures name == "total" ==> ReadSummary(query).total == Some(DigitsValue(Get(query, name).value, false) as int)
  {
    ParseDecimalDigits(Get(query, name).value);
  }

  /** Each number depends on its own parameter only. */
  lemma ParametersIndependent(q1: string, q2: string)
    ensures Get(q1, "items") == Get(q2, "items") ==> ReadSummary(q1).items == ReadSummary(q2).items
    ensures Get(q1, "total") == Get(q2, "total") ==> ReadSummary(q1).total == ReadSummary(q2).total
  {
  }

  /** A decimal rendering is a plain query component. */
  lemma IntToStringIsPlain(i: int)
    ensures Plain(IntToString(i)) && '#' !in IntToString(i)
  {
    var s := IntToString(i);
    forall k | 0 <= k < |s| ensures s[k] != '&' && s[k] != '=' && s[k] != '+' && s[k] != '#' {
      assert k == 0 ==> s[k] == '-' || IsDecimalDigit(s[k]);
    }
  }

  lemma RouteShape(items: int, total: int)
    ensures Checkout.ConfirmationRoute(items, total) ==
            Checkout.ConfirmationPath + "?" + ("items" + "=" + IntToString(items) + "&" + "total" + "=" + IntToString(total))
  {
  }

  lemma ReadBack(q: string, a: string, b: string)
    requires Get(q, "items") == Some(a) && Get(q, "total") == Some(b)
    requires a != "" && b != ""
    ensures ReadSummary(q) == Summary(ParseInt(a), ParseInt(b))
  {
  }

  /** The query of a confirmation location is `items=<a>&total=<b>`. */
  lemma SearchOfRoute(items: int, total: int)
    ensures Search(Checkout.ConfirmationRoute(items, total)) ==
            "items" + "=" + IntToString(items) + "&" + "total" + "=" + IntToString(total)
  {
    var q := "items" + "=" + IntToString(items) + "&" + "total" + "=" + IntToString(total);
    IntToStringIsPlain(items);
    IntToStringIsPlain(total);
    RouteShape(items, total);
    assert '#' !in q;
    assert '?' !in Checkout.ConfirmationPath && '#' !in Checkout.ConfirmationPath;
    SearchOf(Checkout.ConfirmationPath, q);
  }

  /** Round trip: any two numbers the checkout page puts in the confirmation
      location are the two numbers this page reads back. */
  lemma RouteRoundTrip(items: int, total: int)
    ensures ReadSummary(Search(Checkout.ConfirmationRoute(items, total))) == Summary(Some(items), Some(total))
  {
    var a := IntToString(items);
    var b := IntToString(total);
    SearchOfRoute(items, total);
    IntToStringIsPlain(items);
    IntToStringIsPlain(total);
    GetOfTwo("items", a, "total", b);
    ParseIntToString(items);
    ParseIntToString(total);
    ReadBack("items" + "=" + a + "&" + "total" + "=" + b, a, b);
  }

  /** For every cart, the confirmation page shows the checkout page's totals. */
  lemma CheckoutRoundTrip(cart: seq<Checkout.CartItem>)
    ensures ReadSummary(Search(Checkout.ConfirmationRoute(Checkout.TotalItems(cart), Checkout.TotalPrice(cart))))
            == Summary(Some(Checkout.TotalItems(cart)), Some(Checkout.TotalPrice(cart)))
  {
    RouteRoundTrip(Checkout.TotalItems(cart), Checkout.TotalPrice(cart));
  }
}
