/** The currency converter of the Calculators section.

    Amounts are converted through the Armenian dram (AMD) as a pivot: first
    divided by the rate of the source currency (skipped when it is AMD), then
    multiplied by the rate of the target. The rates are fixed constants, each
    the value of one dram in that currency. Both codes come from a `<select>`
    listing exactly the table's currencies, so a code outside the table is a
    precondition violation rather than a modelled NaN.
 */
module Currency {
  import opened Input

  type Code = string

  /** The fixed rate table: units of each currency per AMD */
  const Rates: map<Code, real> := map[
    "AMD" := 1.0,
    "USD" := 0.0026,
    "EUR" := 0.0024,
    "RUB" := 0.24,
    "GBP" := 0.0021
  ]

  /** The pivot currency */
  const Pivot: Code := "AMD"

  datatype CurrencyInfo = CurrencyInfo(code: Code, name: string, symbol: string)

  /** The currencies offered in both `<select>` lists, in display order */
  const Currencies: seq<CurrencyInfo> := [
    CurrencyInfo("AMD", "Armenian Dram", "֏"),
    CurrencyInfo("USD", "US Dollar", "$"),
    CurrencyInfo("EUR", "Euro", "€"),
    CurrencyInfo("RUB", "Russian Ruble", "₽"),
    CurrencyInfo("GBP", "British Pound", "£")
  ]

  /** Every rate in the table is positive and the pivot's is 1. */
  lemma RatesWellFormed()
    ensures forall c :: c in Rates ==> Rates[c] > 0.0
    ensures Pivot in Rates && Rates[Pivot] == 1.0
    ensures Initial.Valid()
  {
  }

  /** The offered currencies are exactly the table's: each listed code has a
      rate, and each rate's code is listed (so its symbol is found). */
  lemma CurrenciesMatchRates(c: Code)
    ensures c in Rates <==> FindSymbol(Currencies, c).Some?
  {
    if c in Rates {
      var i := if c == "AMD" then 0 else if c == "USD" then 1 else if c == "EUR" then 2
               else if c == "RUB" then 3 else 4;
      assert Currencies[i].code == c;
    } else {
      forall i | 0 <= i < |Currencies|
        ensures Currencies[i].code != c
      {
        assert Currencies[i].code in Rates;
      }
    }
  }

  /** The rate of a table currency, known to be positive */
  function Rate(c: Code): (r: real)
    requires c in Rates
    ensures r > 0.0
  {
    Rates[c]
  }

  /** `convert`: the amount in AMD (the amount itself when the source is AMD),
      then times the target rate. The result is the amount scaled by the
      ratio of the two rates. */
  function Convert(amount: real, from: Code, to: Code): (r: real)
    requires from in Rates && to in Rates
    ensures r * Rate(from) == amount * Rate(to)
  {
    var inAmd := if from == Pivot then amount else amount / Rate(from);
    inAmd * Rate(to)
  }

  /** `currencies.find((c) => c.code === code)?.symbol`: the symbol of the
      first listed currency with that code, if any. */
  function FindSymbol(list: seq<CurrencyInfo>, code: Code): (r: Option<string>)
    ensures r.Some? <==> exists i :: 0 <= i < |list| && list[i].code == code
    ensures r.Some? ==> exists i :: 0 <= i < |list| && list[i].code == code && list[i].symbol == r.value
                                    && forall j :: 0 <= j < i ==> list[j].code != code
  {
    if |list| == 0 then None
    else if list[0].code == code then Some(list[0].symbol)
    else
      var rest := FindSymbol(list[1..], code);
      assert forall i :: 0 < i < |list| ==> list[i] == list[1..][i - 1];
      rest
  }

  datatype Conversion = Conversion(value: real, symbol: Option<string>)

  /** `shown` is `amount` scaled by the ratio of the two rates */
  predicate RateRelated(shown: real, amount: real, from: Code, to: Code)
    requires from in Rates && to in Rates
  {
    shown * Rate(from) == amount * Rate(to)
  }

  /** `sym` is the symbol listed for currency `code` */
  predicate SymbolOf(sym: string, code: Code) {
    exists i :: 0 <= i < |Currencies| && Currencies[i].code == code && Currencies[i].symbol == sym
  }

  /** The result the converter displays */
  function ConvertWithSymbol(amount: real, from: Code, to: Code): (r: Conversion)
    requires from in Rates && to in Rates
    ensures RateRelated(r.value, amount, from, to)
    ensures r.symbol.Some? && SymbolOf(r.symbol.value, to)
  {
    CurrenciesMatchRates(to);
    Conversion(Convert(amount, from, to), FindSymbol(Currencies, to))
  }

  /** Converting a currency to itself leaves the amount unchanged. */
  lemma ConvertIdentity(amount: real, c: Code)
    requires c in Rates
    ensures Convert(amount, c, c) == amount
  {
  }

  /** Converting there and back gives the original amount (exact arithmetic). */
  lemma ConvertRoundTrip(amount: real, a: Code, b: Code)
    requires a in Rates && b in Rates
    ensures Convert(Convert(amount, a, b), b, a) == amount
  {
  }

  /** Converting through an intermediate currency is the same as converting
      directly, so the pivot does not distort any pair. */
  lemma ConvertCompose(amount: real, a: Code, b: Code, c: Code)
    requires a in Rates && b in Rates && c in Rates
    ensures Convert(Convert(amount, a, b), b, c) == Convert(amount, a, c)
  {
  }

  /** Conversion is linear in the amount. */
  lemma ConvertLinear(x: real, y: real, k: real, a: Code, b: Code)
    requires a in Rates && b in Rates
    ensures Convert(x + y, a, b) == Convert(x, a, b) + Convert(y, a, b)
    ensures Convert(k * x, a, b) == k * Convert(x, a, b)
  {
  }

  /** The sample from the converter's defaults: 100000 AMD is 260 USD. */
  lemma ConvertExample()
    ensures Convert(100000.0, "AMD", "USD") == 260.0
    ensures ConvertWithSymbol(100000.0, "AMD", "USD") == Conversion(260.0, Some("$"))
  {
  }

  // ---------------------------------------------------------------------------
  // The converter's state and its two buttons

  /** The converter's state: the amount field (as parsed), the two selected
      codes and the result shown, if any. */
  datatype Converter = Converter(amount: Option<real>, from: Code, to: Code, result: Option<Conversion>)
  {
    /** Both selected codes are table currencies */
    predicate Valid() {
      from in Rates && to in Rates
    }
  }

  /** The converter when it first appears: empty field, AMD to USD, no result */
  const Initial: Converter := Converter(None, "AMD", "USD", None)

  /** The convert button: converts the field's value (0 if unreadable) and shows it. */
  function ConvertButton(s: Converter): (s': Converter)
    requires s.Valid()
    ensures s'.Valid()
    ensures s'.amount == s.amount && s'.from == s.from && s'.to == s.to
    ensures s'.result.Some?
    ensures RateRelated(s'.result.value.value, OrZero(s.amount), s.from, s.to)
    ensures s'.result.value.symbol.Some? && SymbolOf(s'.result.value.symbol.value, s.to)
  {
    var shown := ConvertWithSymbol(OrZero(s.amount), s.from, s.to);
    Converter(s.amount, s.from, s.to, Some(shown))
  }

  /** `swapCurrencies`: exchanges the two codes and clears the result. */
  function Swap(s: Converter): (s': Converter)
    ensures s'.from == s.to && s'.to == s.from
    ensures s'.amount == s.amount
    ensures s'.result.None?
    ensures s.Valid() <==> s'.Valid()
  {
    Converter(s.amount, s.to, s.from, None)
  }

  /** A different currency picked in one of the two `<select>` lists. Only the
      code changes: a result already shown stays on screen, now stale. */
  function SelectFrom(s: Converter, code: Code): (s': Converter)
    requires code in Rates
    ensures s.Valid() ==> s'.Valid()
    ensures s'.from == code && s'.to == s.to && s'.amount == s.amount
    ensures s'.result == s.result
  {
    s.(from := code)
  }

  function SelectTo(s: Converter, code: Code): (s': Converter)
    requires code in Rates
    ensures s.Valid() ==> s'.Valid()
    ensures s'.to == code && s'.from == s.from && s'.amount == s.amount
    ensures s'.result == s.result
  {
    s.(to := code)
  }

  /** Swapping twice restores both codes and the amount; only the result is gone. */
  lemma SwapTwice(s: Converter)
    ensures Swap(Swap(s)) == s.(result := None)
  {
  }

  /** Converting, swapping, typing the unrounded result back in and converting
      again shows the original amount. (The page displays the result rounded to
      two fraction digits, so retyping what is on screen need not round-trip.) */
  lemma ConvertSwapConvert(s: Converter)
    requires s.Valid()
    ensures var s1 := ConvertButton(s);
            var s2 := Swap(s1).(amount := Some(s1.result.value.value));
            ConvertButton(s2).result.value.value == OrZero(s.amount)
  {
    ConvertRoundTrip(OrZero(s.amount), s.from, s.to);
  }
}
