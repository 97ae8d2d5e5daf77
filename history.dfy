/**
 * The price-history search of `__purchase_article`: which history entry
 * the paid price belongs to (me_articles_purchase_create.py).
 */
module History {
  import opened Wrappers
  import opened Errors
  import opened PaidArticles

  /** One item of the article-history query; a missing `price` is `None`. */
  datatype HistoryItem = HistoryItem(price: Option<int>, createdAt: int)

  /**
   * `history_created_at`: the `created_at` of the first item, in the
   * newest-first order of the query, whose price is present and equals the
   * article's; `''` when none does. Reading `article_info['price']` raises
   * KeyError when the article has no price and some item has one.
   */
  function HistoryCreatedAt(items: seq<HistoryItem>, articlePrice: Option<int>): (r: Result<AttrValue, Error>)
    ensures r.Err? ==> r.error == ArticlePriceMissing && articlePrice == None
    ensures r.Ok? && r.value.N? ==>
              exists k :: 0 <= k < |items| && items[k].price == articlePrice && r.value == N(items[k].createdAt)
    ensures r.Ok? ==> r.value.N? || r.value == S("")
  {
    if items == [] then Ok(S(""))
    else if items[0].price.None? then HistoryCreatedAt(items[1..], articlePrice)
    else if articlePrice.None? then Err(ArticlePriceMissing)
    else if items[0].price == articlePrice then Ok(N(items[0].createdAt))
    else
      var r := HistoryCreatedAt(items[1..], articlePrice);
      assert r.Ok? && r.value.N? ==> exists k :: 0 <= k < |items| - 1 && items[1..][k].price == articlePrice && r.value == N(items[1..][k].createdAt);
      r
  }

  /** The newest item with the article's price is the one recorded. */
  lemma {:induction false} FirstMatchRecorded(items: seq<HistoryItem>, price: int, k: nat)
    requires k < |items| && items[k].price == Some(price)
    requires forall j :: 0 <= j < k ==> items[j].price != Some(price)
    ensures HistoryCreatedAt(items, Some(price)) == Ok(N(items[k].createdAt))
  {
    if k > 0 {
      FirstMatchRecorded(items[1..], price, k - 1);
    }
  }

  /** No item with the article's price: the marker is `''`. */
  lemma {:induction false} NoMatchRecordsEmpty(items: seq<HistoryItem>, price: int)
    requires forall j :: 0 <= j < |items| ==> items[j].price != Some(price)
    ensures HistoryCreatedAt(items, Some(price)) == Ok(S(""))
  {
    if items != [] {
      NoMatchRecordsEmpty(items[1..], price);
    }
  }

  /** An article without a price fails exactly when some history item has one. */
  lemma {:induction false} MissingArticlePrice(items: seq<HistoryItem>)
    ensures HistoryCreatedAt(items, None) ==
              if exists j :: 0 <= j < |items| && items[j].price.Some? then Err(ArticlePriceMissing) else Ok(S(""))
  {
    if items != [] {
      MissingArticlePrice(items[1..]);
      if items[0].price.None? {
        assert (exists j :: 0 <= j < |items| && items[j].price.Some?) <==>
               (exists j :: 0 <= j < |items| - 1 && items[1..][j].price.Some?);
      }
    }
  }

  /** The `for ... break` loop of lines 129-134. */
  method SelectHistoryCreatedAt(items: seq<HistoryItem>, articlePrice: Option<int>) returns (r: Result<AttrValue, Error>)
    ensures r == HistoryCreatedAt(items, articlePrice)
  {
    var historyCreatedAt := S("");
    var i := 0;
    while i < |items|
      invariant 0 <= i <= |items|
      invariant historyCreatedAt == S("")
      invariant HistoryCreatedAt(items, articlePrice) == HistoryCreatedAt(items[i..], articlePrice)
    {
      var item := items[i];
      assert items[i..][1..] == items[i + 1..];
      if item.price.Some? {
        if articlePrice.None? {
          return Err(ArticlePriceMissing);
        }
        if item.price == articlePrice {
          historyCreatedAt := N(item.createdAt);
          break;
        }
      }
      i := i + 1;
    }
    return Ok(historyCreatedAt);
  }
}
