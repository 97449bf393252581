/** Model prices: the built-in table, the refreshable table, and the simple pricer they must agree with. */
module Pricing {
  import opened Wrappers
  import opened Reals

  datatype ModelPrice = ModelPrice(inputPerMTok: real, outputPerMTok: real)

  type Prices = map<string, ModelPrice>

  const FALLBACK_PRICE := ModelPrice(1.00, 3.00)

  function DefaultPrices(): Prices {
    map[
      "gpt-4o" := ModelPrice(2.50, 10.00),
      "gpt-4o-mini" := ModelPrice(0.15, 0.60),
      "gpt-4.1" := ModelPrice(2.00, 8.00),
      "gpt-4.1-mini" := ModelPrice(0.40, 1.60),
      "claude-3-5-sonnet" := ModelPrice(3.00, 15.00),
      "claude-3-5-haiku" := ModelPrice(0.80, 4.00),
      "gemini-1.5-pro" := ModelPrice(1.25, 5.00),
      "gemini-1.5-flash" := ModelPrice(0.075, 0.30),
      "gemini-2.0-flash" := ModelPrice(0.10, 0.40),
      "gemini-2.5-flash-lite" := ModelPrice(0.10, 0.40),
      "gemini-2.5-pro" := ModelPrice(1.25, 10.00)
    ]
  }

  function CostOf(price: ModelPrice, promptTokens: int, completionTokens: int): real {
    (promptTokens as real * price.inputPerMTok + completionTokens as real * price.outputPerMTok) / 1_000_000.0
  }

  /** What a table lists for a model, or the fallback. */
  function Listed(prices: Prices, model: string): ModelPrice {
    if model in prices then prices[model] else FALLBACK_PRICE
  }

  function Price(prices: Prices, model: string, promptTokens: int, completionTokens: int): real {
    CostOf(Listed(prices, model), promptTokens, completionTokens)
  }

  /** The pricer without a table: built-in price, or the fallback for an unknown model. */
  function StaticPrice(model: string, promptTokens: int, completionTokens: int): real {
    if model in DefaultPrices() then CostOf(DefaultPrices()[model], promptTokens, completionTokens)
    else CostOf(FALLBACK_PRICE, promptTokens, completionTokens)
  }

  /** The cost is linear in the tokens, and a million of a kind cost that kind's price. */
  lemma CostIsLinear(price: ModelPrice, p1: int, c1: int, p2: int, c2: int)
    ensures CostOf(price, p1 + p2, c1 + c2) == CostOf(price, p1, c1) + CostOf(price, p2, c2)
    ensures CostOf(price, 1_000_000, 0) == price.inputPerMTok && CostOf(price, 0, 1_000_000) == price.outputPerMTok
  {
    assert (p1 + p2) as real * price.inputPerMTok == p1 as real * price.inputPerMTok + p2 as real * price.inputPerMTok;
    assert (c1 + c2) as real * price.outputPerMTok == c1 as real * price.outputPerMTok + c2 as real * price.outputPerMTok;
  }

  ghost predicate NonNegativePrices(prices: Prices) {
    forall model :: model in prices ==> prices[model].inputPerMTok >= 0.0 && prices[model].outputPerMTok >= 0.0
  }

  /** With non-negative prices a cost is non-negative and grows with the completion. */
  lemma PriceIsMonotone(prices: Prices, model: string, promptTokens: int, fewer: int, more: int)
    requires NonNegativePrices(prices)
    requires 0 <= promptTokens && 0 <= fewer <= more
    ensures 0.0 <= Price(prices, model, promptTokens, fewer) <= Price(prices, model, promptTokens, more)
  {
    var price := Listed(prices, model);
    ProductIsNonNegative(promptTokens as real, price.inputPerMTok);
    ProductIsNonNegative(fewer as real, price.outputPerMTok);
    ProductIsNonNegative((more - fewer) as real, price.outputPerMTok);
    assert more as real * price.outputPerMTok
        == fewer as real * price.outputPerMTok + (more - fewer) as real * price.outputPerMTok;
  }

  /** Every kind of token used is free. */
  predicate IsFree(price: ModelPrice, promptTokens: int, completionTokens: int) {
    (promptTokens == 0 || price.inputPerMTok == 0.0) && (completionTokens == 0 || price.outputPerMTok == 0.0)
  }

  lemma CostsNothingExactlyWhen(price: ModelPrice, promptTokens: int, completionTokens: int)
    requires price.inputPerMTok >= 0.0 && price.outputPerMTok >= 0.0 && promptTokens >= 0 && completionTokens >= 0
    ensures CostOf(price, promptTokens, completionTokens) == 0.0 <==> IsFree(price, promptTokens, completionTokens)
  {
    ProductIsNonNegative(promptTokens as real, price.inputPerMTok);
    ProductIsNonNegative(completionTokens as real, price.outputPerMTok);
    ProductVanishes(promptTokens as real, price.inputPerMTok);
    ProductVanishes(completionTokens as real, price.outputPerMTok);
  }

  /** What the prompt costs more under one price, the completion must cost less. */
  predicate SameBill(a: ModelPrice, b: ModelPrice, promptTokens: int, completionTokens: int) {
    promptTokens as real * (a.inputPerMTok - b.inputPerMTok) == completionTokens as real * (b.outputPerMTok - a.outputPerMTok)
  }

  lemma CostsTheSameExactlyWhen(a: ModelPrice, b: ModelPrice, promptTokens: int, completionTokens: int)
    ensures CostOf(a, promptTokens, completionTokens) == CostOf(b, promptTokens, completionTokens)
       <==> SameBill(a, b, promptTokens, completionTokens)
  {
    var p, c := promptTokens as real, completionTokens as real;
    assert p * (a.inputPerMTok - b.inputPerMTok) == p * a.inputPerMTok - p * b.inputPerMTok;
    assert c * (b.outputPerMTok - a.outputPerMTok) == c * b.outputPerMTok - c * a.outputPerMTok;
  }

  /** What a million prompt and a million completion tokens of a model cost without a feed. */
  ghost predicate Bills(model: string, prompt: real, completion: real) {
    StaticPrice(model, 1_000_000, 0) == prompt && StaticPrice(model, 0, 1_000_000) == completion
  }

  lemma BuiltInBills(model: string)
    ensures Bills("gpt-4o", 2.50, 10.00) && Bills("gpt-4o-mini", 0.15, 0.60)
    ensures Bills("gpt-4.1", 2.00, 8.00) && Bills("gpt-4.1-mini", 0.40, 1.60)
    ensures Bills("claude-3-5-sonnet", 3.00, 15.00) && Bills("claude-3-5-haiku", 0.80, 4.00)
    ensures Bills("gemini-1.5-pro", 1.25, 5.00) && Bills("gemini-1.5-flash", 0.075, 0.30)
    ensures Bills("gemini-2.0-flash", 0.10, 0.40) && Bills("gemini-2.5-flash-lite", 0.10, 0.40)
    ensures Bills("gemini-2.5-pro", 1.25, 10.00)
    ensures model !in DefaultPrices() ==> Bills(model, 1.00, 3.00)
  {
  }

  /** No built-in price is zero, nor is the fallback. */
  lemma BuiltInPricesArePositive(model: string)
    ensures Listed(DefaultPrices(), model).inputPerMTok > 0.0 && Listed(DefaultPrices(), model).outputPerMTok > 0.0
  {
  }

  // ---------------------------------------------------------------------------------------------
  // Refreshing
  // ---------------------------------------------------------------------------------------------

  /** What one attempt to fetch the feed brought back; `feed` is `None` when the body does not decode. */
  datatype Fetch = Unreachable | Response(status: int, feed: Option<Prices>)

  predicate Usable(fetch: Fetch) {
    fetch.Response? && 200 <= fetch.status < 300 && fetch.feed.Some? && |fetch.feed.value| > 0
  }

  /** The table in force after a series of refresh attempts. */
  function TableAfter(url: string, fetches: seq<Fetch>): Prices {
    if fetches == [] then DefaultPrices()
    else
      var last := fetches[|fetches| - 1];
      if url != "" && Usable(last) then DefaultPrices() + last.feed.value
      else TableAfter(url, fetches[..|fetches| - 1])
  }

  lemma OneMoreFetch(url: string, fetches: seq<Fetch>, fetch: Fetch)
    ensures TableAfter(url, fetches + [fetch])
         == if url != "" && Usable(fetch) then DefaultPrices() + fetch.feed.value else TableAfter(url, fetches)
  {
    assert (fetches + [fetch])[..|fetches|] == fetches;
  }

  /** Attempts that bring no usable feed leave no trace: only the last usable feed counts, and in full. */
  lemma {:induction false} LastUsableFeedWins(url: string, fetches: seq<Fetch>, k: nat, model: string, p: int, c: int)
    requires url != "" && k < |fetches| && Usable(fetches[k])
    requires forall i :: k < i < |fetches| ==> !Usable(fetches[i])
    ensures var feed := fetches[k].feed.value;
            Price(TableAfter(url, fetches), model, p, c) ==
            if model in feed then CostOf(feed[model], p, c) else StaticPrice(model, p, c)
  {
    if k < |fetches| - 1 {
      LastUsableFeedWins(url, fetches[..|fetches| - 1], k, model, p, c);
    }
  }

  /** Without a usable feed, or without a feed address, the table prices like the static pricer. */
  lemma {:induction false} NoFeedMeansStaticPrices(url: string, fetches: seq<Fetch>, model: string, p: int, c: int)
    requires url == "" || forall i :: 0 <= i < |fetches| ==> !Usable(fetches[i])
    ensures Price(TableAfter(url, fetches), model, p, c) == StaticPrice(model, p, c)
  {
    if fetches != [] {
      NoFeedMeansStaticPrices(url, fetches[..|fetches| - 1], model, p, c);
    }
  }

  class PriceTable {
    const url: string
    var prices: Prices
    /** Every refresh attempt so far. */
    ghost var attempts: seq<Fetch>

    ghost predicate Valid()
      reads this
    {
      prices == TableAfter(url, attempts)
    }

    constructor (url: string)
      ensures Valid() && this.url == url && attempts == []
    {
      this.url := url;
      prices := DefaultPrices();
      attempts := [];
    }

    /** Swaps in the built-in prices overridden by the feed, or changes nothing. */
    method Refresh(fetch: Fetch) returns (ok: bool)
      requires Valid()
      modifies this
      ensures Valid() && attempts == old(attempts) + [fetch]
      ensures ok <==> || url == ""
                      || (fetch.Response? && 200 <= fetch.status <= 299 && fetch.feed.Some? && fetch.feed.value != map[])
      ensures !ok || url == "" ==> prices == old(prices)
      ensures ok && url != "" ==>
                forall model :: Listed(prices, model) ==
                  if model in fetch.feed.value then fetch.feed.value[model] else Listed(DefaultPrices(), model)
    {
      OneMoreFetch(url, attempts, fetch);
      attempts := attempts + [fetch];
      if url == "" {
        return true;
      }
      if fetch.Unreachable? || fetch.status < 200 || fetch.status >= 300 || fetch.feed.None? {
        return false;
      }
      var feed := fetch.feed.value;
      if |feed| == 0 {
        return false;
      }
      prices := Override(DefaultPrices(), feed);
      return true;
    }
  }

  /** Overwrites a table with every entry of the feed, in whatever order the entries come. */
  method Override(base: Prices, feed: Prices) returns (next: Prices)
    ensures next == base + feed
  {
    next := base;
    var todo := feed.Keys;
    while todo != {}
      invariant todo <= feed.Keys
      invariant next == base + (feed - todo)
      decreases todo
    {
      var model :| model in todo;
      next := next[model := feed[model]];
      todo := todo - {model};
    }
  }
}
