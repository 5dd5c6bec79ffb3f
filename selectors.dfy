/** The selector helpers of the page-rendering adapters (`BaseScraper`):
    try an ordered list of CSS selectors and take the first that yields
    usable text. The rendered page is abstracted to what each selector gives. */
module Selectors {
  import opened Prelude
  import opened Text

  /** What evaluating one selector gives: no element, an element with its
      inner text, or an exception from the query or from reading the text. */
  datatype Probe = NoElement | Element(text: string) | Raises

  /** The rendered page: a selector it does not list matches no element. */
  type Page = map<string, Probe>

  function ProbeOf(page: Page, selector: string): Probe
  {
    if selector in page then page[selector] else NoElement
  }

  /** The stripped text a selector contributes to `_get_text`, if non-blank. */
  function TextAt(page: Page, selector: string): Option<string>
  {
    match ProbeOf(page, selector)
    case Element(t) => if Strip(t) != [] then Some(Strip(t)) else None
    case _ => None
  }

  /** The price a selector contributes to `_get_price`: every non-digit
      (currency sign, '.', ',', spaces) is removed and the digits that remain,
      if any, are read as a number. */
  function PriceAt(page: Page, selector: string): Option<real>
  {
    match ProbeOf(page, selector)
    case Element(t) =>
      var cleaned := KeepDigits(t);
      if cleaned != [] then Some(DigitsValue(cleaned) as real) else None
    case _ => None
  }

  /** `_get_text`: the stripped text of the first selector whose element
      exists and has non-blank text; "" when there is none. */
  method GetText(page: Page, selectors: seq<string>) returns (r: string)
    ensures r == [] <==> forall j :: 0 <= j < |selectors| ==> TextAt(page, selectors[j]).None?
    ensures r != [] ==> exists i :: (0 <= i < |selectors| && TextAt(page, selectors[i]) == Some(r)
      && forall j :: 0 <= j < i ==> TextAt(page, selectors[j]).None?)
  {
    for i := 0 to |selectors|
      invariant forall j :: 0 <= j < i ==> TextAt(page, selectors[j]).None?
    {
      var probe := ProbeOf(page, selectors[i]);
      if probe.Element? {
        var text := Strip(probe.text);
        if text != [] {
          return text;
        }
      }
    }
    return "";
  }

  /** `_get_price`: the price of the first selector whose element exists and
      whose text holds at least one digit; `None` when there is none. */
  method GetPrice(page: Page, selectors: seq<string>) returns (r: Option<real>)
    ensures r.None? <==> forall j :: 0 <= j < |selectors| ==> PriceAt(page, selectors[j]).None?
    ensures r.Some? ==> exists i :: (0 <= i < |selectors| && PriceAt(page, selectors[i]) == r
      && forall j :: 0 <= j < i ==> PriceAt(page, selectors[j]).None?)
  {
    for i := 0 to |selectors|
      invariant forall j :: 0 <= j < i ==> PriceAt(page, selectors[j]).None?
    {
      var probe := ProbeOf(page, selectors[i]);
      if probe.Element? {
        var cleaned := KeepDigits(probe.text);
        if cleaned != [] {
          return Some(DigitsValue(cleaned) as real);
        }
      }
    }
    return None;
  }

  /** Only emptiness of the cleaned text is checked, so an element reading "0"
      gives the price 0 rather than no price. */
  lemma ZeroTextIsZeroPrice(page: Page, selector: string)
    requires ProbeOf(page, selector) == Element("0")
    ensures PriceAt(page, selector) == Some(0.0)
  {
    assert KeepDigits("0") == "0";
  }

  /** Dots, commas and every other non-digit are ignored by `_get_price`:
      removing one from an element's text does not change the price read. */
  lemma NonDigitsAreIgnored(page: Page, selector: string, before: string, c: char, after: string)
    requires ProbeOf(page, selector) == Element(before + [c] + after)
    requires !IsDigit(c)
    ensures PriceAt(page, selector) == PriceAt(page[selector := Element(before + after)], selector)
  {
    KeepDigitsAppend(before + [c], after);
    KeepDigitsAppend(before, [c]);
    KeepDigitsAppend(before, after);
    assert [c][1..] == [];
    assert KeepDigits([c]) == [];
    assert KeepDigits(before + [c]) == KeepDigits(before);
    assert KeepDigits(before + [c] + after) == KeepDigits(before + after);
    assert ProbeOf(page[selector := Element(before + after)], selector) == Element(before + after);
  }
}
