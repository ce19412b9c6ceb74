/**
 * `generateQuote` of services/Service.ts: pick a quote from the static
 * store by the requested index, or at random when that index is unusable,
 * render its card, and return the record. `Math.random()` is a parameter
 * (any value in [0, 1)); the store is a parameter too.
 */
module Service {
  import opened Wrappers
  import opened Types
  import opened Compositor

  /** One entry of the quote store. */
  datatype QuoteEntry = QuoteEntry(content: string, author: string)

  /** The `specificIndex` argument: omitted, `null`, `NaN`, or an integer. */
  datatype IndexArg = Undefined | Null | NaN | Number(value: int)

  /** An argument that is defined, a number and within `[0, length)`: the one kind used as given. */
  predicate UsableIndex(arg: IndexArg, length: nat)
  {
    arg.Number? && 0 <= arg.value < length
  }

  /** `Math.floor(Math.random() * length)`. */
  function RandomIndex(random: real, length: nat): (index: int)
    requires 0.0 <= random < 1.0
    ensures length > 0 ==> 0 <= index < length
    ensures length == 0 ==> index == 0
  {
    var scaled := random * (length as real);
    assert scaled >= 0.0;
    assert length > 0 ==> scaled < length as real by {
      if length > 0 { assert (1.0 - random) * (length as real) > 0.0; }
    }
    assert scaled.Floor as real <= scaled;
    scaled.Floor
  }

  /**
   * `generateQuote(specificIndex)`. It fails (the promise rejects) only
   * when the store is empty, since then the random index 0 names no entry;
   * a failing image leaves `imageUrl` undefined and never fails the call.
   */
  method GenerateQuote(store: seq<QuoteEntry>, specificIndex: IndexArg, random: real, surface: Surface)
    returns (quote: Option<Quote>)
    requires 0.0 <= random < 1.0
    ensures quote.Some? <==> |store| > 0
    ensures quote.Some? ==> quote.value.id < |store|
    ensures quote.Some? && UsableIndex(specificIndex, |store|) ==> quote.value.id == specificIndex.value
    ensures quote.Some? && !UsableIndex(specificIndex, |store|) ==> quote.value.id == RandomIndex(random, |store|)
    ensures quote.Some? ==>
      && quote.value.text == store[quote.value.id].content
      && quote.value.author == store[quote.value.id].author
      && quote.value.imageUrl == Rendered(quote.value.text, quote.value.author, surface)
  {
    var index: int;
    if specificIndex.Undefined? || specificIndex.Null? || specificIndex.NaN?
      || specificIndex.value < 0 || specificIndex.value >= |store|
    {
      index := RandomIndex(random, |store|);
    } else {
      index := specificIndex.value;
    }
    if !(0 <= index < |store|) {
      // quotesData[index] is undefined and reading its content throws
      return None;
    }
    var rawQuote := store[index];
    var imageUrl := CreateQuoteImage(rawQuote.content, rawQuote.author, surface);
    return Some(Quote(index, rawQuote.content, rawQuote.author, imageUrl));
  }
}
