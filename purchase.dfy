/**
 * `exec_main_proc` of MeArticlesPurchaseCreate: the purchase saga, first as
 * a function of the inputs, the ledger's script and the table's contents,
 * then as the method that drives the ledger and the table in the same
 * order (me_articles_purchase_create.py).
 */
module Purchase {
  import opened Wrappers
  import opened Json
  import opened Errors
  import opened Numerals
  import opened Amounts
  import opened Directory
  import opened Ledger
  import opened Poller
  import opened History
  import opened PaidArticles

  /** settings.ETH_ZERO_ADDRESS: where burnt tokens go. */
  const EthZeroAddress: string := "0000000000000000000000000000000000000000"

  /**
   * One validated request: the buyer's `cognito:username` and
   * `custom:private_eth_address` claims, and the params after
   * `validate_params`.
   */
  datatype Request = Request(articleId: string, buyer: string, buyerAddress: string, price: int)

  /** The article-info item read at line 64; a missing `price` is `None`. */
  datatype Article = Article(articleId: string, userId: string, title: string, price: Option<int>)

  /** `TimeUtil.generate_sort_key()` and `int(time.time())`, taken as given. */
  datatype Stamp = Stamp(sortKey: int, createdAt: int)

  /** A request the saga can run on: the article was read by the request's id, and the price is in Decimal's exact range. */
  predicate Admissible(req: Request, article: Article)
  {
    article.articleId == req.articleId && 0 <= req.price < DecimalExactLimit
  }

  /** Python's `address[2:]`: the seller's address without its `0x`. */
  function WithoutPrefix(address: string): (r: string)
    ensures |address| >= 2 ==> address == address[..2] + r
    ensures |address| < 2 ==> r == ""
  {
    if |address| >= 2 then address[2..] else ""
  }

  /** The purchase tip of `__create_purchase_transaction`: nine tenths of the price to the seller. */
  function PurchaseTip(req: Request, sellerAddress: string): (call: Call)
    requires 0 <= req.price < DecimalExactLimit
    ensures call.Tip? && call.fromAddress == req.buyerAddress && call.toAddress == WithoutPrefix(sellerAddress)
    ensures |call.tipValue| == 64 && AllDigits(call.tipValue, 16)
            && Numerals.Value(call.tipValue, 16) == PurchaseAmount(req.price)
  {
    TipValuesRoundTrip(req.price);
    Tip(req.buyerAddress, WithoutPrefix(sellerAddress), Format064x(PurchaseAmount(req.price)))
  }

  /** The tip of `__burn_transaction`: a tenth of the price to the zero address. */
  function BurnTip(req: Request): (call: Call)
    requires 0 <= req.price < DecimalExactLimit
    ensures call.Tip? && call.fromAddress == req.buyerAddress && call.toAddress == EthZeroAddress
    ensures |call.tipValue| == 64 && AllDigits(call.tipValue, 16)
            && Numerals.Value(call.tipValue, 16) == BurnAmount(req.price)
  {
    TipValuesRoundTrip(req.price);
    Tip(req.buyerAddress, EthZeroAddress, Format064x(BurnAmount(req.price)))
  }

  function BuyerKey(req: Request): Key
  {
    Key(req.articleId, req.buyer)
  }

  /** The item `__purchase_article` puts: everything but `burn_transaction` and `status`. */
  function PaidArticle(req: Request, article: Article, purchaseTransaction: string, stamp: Stamp,
                       historyCreatedAt: AttrValue): (rec: Record)
    ensures Keyed(BuyerKey(req), rec)
    ensures rec.burnTransaction == None && rec.status == None
    ensures rec.purchaseTransaction == Some(purchaseTransaction)
  {
    Record(
      articleId := req.articleId,
      userId := req.buyer,
      articleUserId := Some(article.userId),
      articleTitle := Some(article.title),
      purchaseTransaction := Some(purchaseTransaction),
      sortKey := Some(stamp.sortKey),
      price := Some(req.price),
      historyCreatedAt := Some(historyCreatedAt),
      createdAt := Some(stamp.createdAt),
      burnTransaction := None,
      status := None)
  }

  /** What one invocation returns, leaves in the table, and posts to the ledger. */
  datatype SagaOutcome = SagaOutcome(result: Result<Status, Error>, items: map<Key, Record>, calls: seq<Call>)

  /** An outcome preceded by one more ledger call. */
  function After(call: Call, o: SagaOutcome): SagaOutcome
  {
    SagaOutcome(o.result, o.items, [call] + o.calls)
  }

  /**
   * The saga: own-article check, seller address, purchase tip, conditional
   * put, burn tip, burn update, polling, status update. Each step runs only
   * if the previous ones succeeded, and nothing done is undone.
   */
  function Saga(req: Request, article: Article, attrs: seq<Attribute>, history: seq<HistoryItem>,
                stamp: Stamp, script: seq<Value>, items: map<Key, Record>): (o: SagaOutcome)
    requires Admissible(req, article)
    // Only the buyer's item for this article can change; every other item stays as it was.
    ensures o.items - {BuyerKey(req)} == items - {BuyerKey(req)}
    // Every item the saga leaves in the table carries its own key.
    ensures WellKeyed(items) ==> WellKeyed(o.items)
    // At most two tips and the polling budget's receipt queries reach the ledger.
    ensures |o.calls| <= 2 + PollingBudget
  {
    if article.userId == req.buyer then SagaOutcome(Err(CannotPurchaseOwnArticle), items, [])
    else match SellerAddress(attrs)
      case Err(e) => SagaOutcome(Err(e), items, [])
      case Ok(seller) =>
        After(PurchaseTip(req, seller), AfterPurchaseTip(req, article, history, stamp, script, items))
  }

  /**
   * The saga from the purchase tip's response on: the history search, the
   * conditional put, and the burn tip. The table changes only when the tip
   * went through and the buyer had no record, and then the new record holds
   * the tip's transaction id.
   */
  function AfterPurchaseTip(req: Request, article: Article, history: seq<HistoryItem>, stamp: Stamp,
                            script: seq<Value>, items: map<Key, Record>): (o: SagaOutcome)
    requires Admissible(req, article)
    ensures o.items - {BuyerKey(req)} == items - {BuyerKey(req)}
    ensures |o.calls| <= 1 + PollingBudget
    ensures WellKeyed(items) ==> WellKeyed(o.items)
    ensures o.items != items || |o.calls| >= 1 ==>
              && TipOutcome(Reply(script, 0)).Ok?
              && BuyerKey(req) !in items && BuyerKey(req) in o.items
              && o.items[BuyerKey(req)].purchaseTransaction == Some(TipOutcome(Reply(script, 0)).value)
              && |o.calls| >= 1 && o.calls[0] == BurnTip(req)
  {
    var key := BuyerKey(req);
    match TipOutcome(Reply(script, 0))
    case Err(e) => SagaOutcome(Err(e), items, [])
    case Ok(purchaseTransaction) =>
      match HistoryCreatedAt(history, article.price)
      case Err(e) => SagaOutcome(Err(e), items, [])
      case Ok(historyCreatedAt) =>
        if key in items then SagaOutcome(Err(DuplicatePurchase), items, [])
        else
          var inserted := items[key := PaidArticle(req, article, purchaseTransaction, stamp, historyCreatedAt)];
          After(BurnTip(req), AfterBurnTip(key, purchaseTransaction, Drop(script, 1), inserted))
  }

  /**
   * The saga from the burn tip's response on, once the record exists: the
   * burn update, the polling, and the status update. `script` starts with
   * the burn tip's response. A failed burn tip changes nothing further;
   * every later ledger call is a receipt query for the purchase transaction.
   */
  function AfterBurnTip(key: Key, purchaseTransaction: string, script: seq<Value>,
                        items: map<Key, Record>): (o: SagaOutcome)
    requires key in items
    ensures key in o.items && o.items - {key} == items - {key}
    ensures |o.calls| <= PollingBudget
    ensures forall i :: 0 <= i < |o.calls| ==> o.calls[i] == Receipt(purchaseTransaction)
    ensures WellKeyed(items) ==> WellKeyed(o.items)
    ensures TipOutcome(Reply(script, 0)).Err? ==>
              o == SagaOutcome(Err(TipOutcome(Reply(script, 0)).error), items, [])
    ensures o.items[key].purchaseTransaction == items[key].purchaseTransaction
    ensures o.result.Ok? ==>
              && o.items[key].burnTransaction == Some(TipOutcome(Reply(script, 0)).value)
              && o.items[key].status == Some(o.result.value.Text())
              && o.result == Polling(Drop(script, 1), PollingBudget).outcome
              && |o.calls| == Polling(Drop(script, 1), PollingBudget).attempts
    ensures TipOutcome(Reply(script, 0)).Ok? ==>
              && o.result == Polling(Drop(script, 1), PollingBudget).outcome
              && |o.calls| == Polling(Drop(script, 1), PollingBudget).attempts
              && var burnt := items[key].(burnTransaction := Some(TipOutcome(Reply(script, 0)).value));
                 o.items[key] == if o.result.Ok? then burnt.(status := Some(o.result.value.Text())) else burnt
  {
    match TipOutcome(Reply(script, 0))
    case Err(e) => SagaOutcome(Err(e), items, [])
    case Ok(burnTransaction) =>
      var burnt := WithAttribute(items, key, Field.BurnTransaction, burnTransaction);
      var run := Polling(Drop(script, 1), PollingBudget);
      var calls := Receipts(purchaseTransaction, run.attempts);
      match run.outcome
      case Err(e) => SagaOutcome(Err(e), burnt, calls)
      case Ok(status) => SagaOutcome(Ok(status), WithAttribute(burnt, key, Field.Status, status.Text()), calls)
  }

  // ---- Properties of the saga ----

  /** Buying one's own article fails before any lookup, tip or write. */
  lemma OwnArticleRejected(req: Request, article: Article, attrs: seq<Attribute>, history: seq<HistoryItem>,
                           stamp: Stamp, script: seq<Value>, items: map<Key, Record>)
    requires Admissible(req, article) && article.userId == req.buyer
    ensures Saga(req, article, attrs, history, stamp, script, items)
            == SagaOutcome(Err(CannotPurchaseOwnArticle), items, [])
  {
  }

  /** Without exactly one seller address nothing is posted and nothing written. */
  lemma MissingSellerAddressRejected(req: Request, article: Article, attrs: seq<Attribute>, history: seq<HistoryItem>,
                                     stamp: Stamp, script: seq<Value>, items: map<Key, Record>)
    requires Admissible(req, article) && article.userId != req.buyer
    requires |AddressAttributes(attrs)| != 1
    ensures Saga(req, article, attrs, history, stamp, script, items)
            == SagaOutcome(Err(PrivateEthAddressNotFound), items, [])
  {
  }

  /**
   * The ledger sees the purchase tip first, the burn tip second and only
   * after the record was created, then receipt queries for the purchase
   * transaction only.
   */
  lemma CallOrder(req: Request, article: Article, attrs: seq<Attribute>, history: seq<HistoryItem>,
                  stamp: Stamp, script: seq<Value>, items: map<Key, Record>)
    requires Admissible(req, article)
    ensures var o := Saga(req, article, attrs, history, stamp, script, items);
      |o.calls| >= 1 ==> article.userId != req.buyer && SellerAddress(attrs).Ok?
                         && o.calls[0] == PurchaseTip(req, SellerAddress(attrs).value)
    ensures var o := Saga(req, article, attrs, history, stamp, script, items);
      |o.calls| >= 2 ==> TipOutcome(Reply(script, 0)).Ok? && BuyerKey(req) !in items
                         && BuyerKey(req) in o.items && o.calls[1] == BurnTip(req)
    ensures var o := Saga(req, article, attrs, history, stamp, script, items);
      forall i :: 2 <= i < |o.calls| ==> o.calls[i] == Receipt(TipOutcome(Reply(script, 0)).value)
  {
  }

  /** A failed purchase tip leaves the table as it was and stops the saga. */
  lemma FailedPurchaseTipLeavesNoRecord(req: Request, article: Article, attrs: seq<Attribute>, history: seq<HistoryItem>,
                                        stamp: Stamp, script: seq<Value>, items: map<Key, Record>)
    requires Admissible(req, article)
    requires TipOutcome(Reply(script, 0)).Err?
    ensures var o := Saga(req, article, attrs, history, stamp, script, items);
      o.items == items && o.result.Err? && |o.calls| <= 1
  {
  }

  /** The table changes only once the purchase tip has gone through, and the new record holds its transaction id. */
  lemma RecordOnlyAfterPurchaseTip(req: Request, article: Article, attrs: seq<Attribute>, history: seq<HistoryItem>,
                                   stamp: Stamp, script: seq<Value>, items: map<Key, Record>)
    requires Admissible(req, article)
    ensures var o := Saga(req, article, attrs, history, stamp, script, items);
      o.items != items ==>
        && TipOutcome(Reply(script, 0)).Ok?
        && BuyerKey(req) !in items && BuyerKey(req) in o.items
        && o.items[BuyerKey(req)].purchaseTransaction == Some(TipOutcome(Reply(script, 0)).value)
  {
  }

  /** A second purchase of the same article by the same buyer fails, leaves the record alone and burns nothing. */
  lemma DuplicatePurchaseRejected(req: Request, article: Article, attrs: seq<Attribute>, history: seq<HistoryItem>,
                                  stamp: Stamp, script: seq<Value>, items: map<Key, Record>)
    requires Admissible(req, article) && BuyerKey(req) in items
    ensures var o := Saga(req, article, attrs, history, stamp, script, items);
      o.items == items && o.result.Err? && |o.calls| <= 1
    ensures var o := Saga(req, article, attrs, history, stamp, script, items);
      |o.calls| == 1 && TipOutcome(Reply(script, 0)).Ok? && HistoryCreatedAt(history, article.price).Ok?
      ==> o.result == Err(DuplicatePurchase)
  {
  }

  /** A failed burn tip is not rolled back: the record stays, without `burn_transaction` or `status`. */
  lemma FailedBurnKeepsRecord(req: Request, article: Article, attrs: seq<Attribute>, history: seq<HistoryItem>,
                              stamp: Stamp, script: seq<Value>, items: map<Key, Record>)
    requires Admissible(req, article)
    requires TipOutcome(Reply(script, 1)).Err?
    ensures var o := Saga(req, article, attrs, history, stamp, script, items);
      |o.calls| == 2 ==>
        && o.result == Err(TipOutcome(Reply(script, 1)).error)
        && BuyerKey(req) in o.items && BuyerKey(req) !in items
        && o.items[BuyerKey(req)].burnTransaction == None
        && o.items[BuyerKey(req)].status == None
  {
  }

  /**
   * On success the record holds both transaction ids and the status that is
   * returned, which is the poller's verdict on the purchase transaction.
   */
  lemma SuccessRecordsStatus(req: Request, article: Article, attrs: seq<Attribute>, history: seq<HistoryItem>,
                             stamp: Stamp, script: seq<Value>, items: map<Key, Record>)
    requires Admissible(req, article)
    ensures var o := Saga(req, article, attrs, history, stamp, script, items);
      o.result.Ok? ==>
        && BuyerKey(req) !in items && BuyerKey(req) in o.items
        && o.result == Polling(Drop(script, 2), PollingBudget).outcome
        && |o.calls| == 2 + Polling(Drop(script, 2), PollingBudget).attempts
        && var record := o.items[BuyerKey(req)];
           && record.status == Some(o.result.value.Text())
           && record.burnTransaction == Some(TipOutcome(Reply(script, 1)).value)
           && record.purchaseTransaction == Some(TipOutcome(Reply(script, 0)).value)
  {
  }

  /**
   * The happy path: both tips go through, the record is new, and the first
   * receipt is mined; the purchase returns 'done' after one receipt query.
   */
  lemma FirstMinedReceiptIsDone(req: Request, article: Article, attrs: seq<Attribute>, history: seq<HistoryItem>,
                                stamp: Stamp, script: seq<Value>, items: map<Key, Record>)
    requires Admissible(req, article) && article.userId != req.buyer
    requires SellerAddress(attrs).Ok? && HistoryCreatedAt(history, article.price).Ok?
    requires BuyerKey(req) !in items
    requires TipOutcome(Reply(script, 0)).Ok? && TipOutcome(Reply(script, 1)).Ok?
    requires Classify(Reply(script, 2)) == Mined
    ensures var o := Saga(req, article, attrs, history, stamp, script, items);
      o.result == Ok(Done) && |o.calls| == 3
  {
    assert Reply(Drop(script, 2), 0) == Reply(script, 2);
  }

  // ---- The imperative saga ----

  /** `__create_purchase_transaction`. */
  method CreatePurchaseTransaction(chain: Chain, req: Request, sellerAddress: string) returns (r: Result<string, Error>)
    requires 0 <= req.price < DecimalExactLimit
    modifies chain
    ensures chain.calls == old(chain.calls) + [PurchaseTip(req, sellerAddress)]
    ensures chain.script == Drop(old(chain.script), 1)
    ensures r == TipOutcome(Reply(old(chain.script), 0))
  {
    var purchasePrice := Format064x(PurchaseAmount(req.price));
    r := chain.SubmitTip(Tip(req.buyerAddress, WithoutPrefix(sellerAddress), purchasePrice));
  }

  /** `__burn_transaction`. */
  method BurnTransaction(chain: Chain, req: Request) returns (r: Result<string, Error>)
    requires 0 <= req.price < DecimalExactLimit
    modifies chain
    ensures chain.calls == old(chain.calls) + [BurnTip(req)]
    ensures chain.script == Drop(old(chain.script), 1)
    ensures r == TipOutcome(Reply(old(chain.script), 0))
  {
    var burnToken := Format064x(BurnAmount(req.price));
    r := chain.SubmitTip(Tip(req.buyerAddress, EthZeroAddress, burnToken));
  }

  /** `__purchase_article`: find the history entry, then put the record unless one exists. */
  method PurchaseArticle(table: Table, req: Request, article: Article, history: seq<HistoryItem>, stamp: Stamp,
                         purchaseTransaction: string) returns (r: Result<string, Error>)
    requires table.Valid()
    modifies table
    ensures table.Valid()
    ensures HistoryCreatedAt(history, article.price).Err? ==>
              r == Err(ArticlePriceMissing) && table.items == old(table.items)
    ensures HistoryCreatedAt(history, article.price).Ok? && BuyerKey(req) in old(table.items) ==>
              r == Err(DuplicatePurchase) && table.items == old(table.items)
    ensures HistoryCreatedAt(history, article.price).Ok? && BuyerKey(req) !in old(table.items) ==>
              && r == Ok(purchaseTransaction)
              && table.items == old(table.items)[BuyerKey(req) :=
                   PaidArticle(req, article, purchaseTransaction, stamp, HistoryCreatedAt(history, article.price).value)]
  {
    var historyCreatedAt := SelectHistoryCreatedAt(history, article.price);
    if historyCreatedAt.Err? {
      return Err(historyCreatedAt.error);
    }
    var paidArticle := PaidArticle(req, article, purchaseTransaction, stamp, historyCreatedAt.value);
    var written := table.PutIfAbsent(BuyerKey(req), paidArticle);
    if !written {
      return Err(DuplicatePurchase);
    }
    return Ok(purchaseTransaction);
  }

  /** `exec_main_proc`, once `validate_params` has passed. */
  method ExecMainProc(req: Request, article: Article, attrs: seq<Attribute>, history: seq<HistoryItem>,
                      stamp: Stamp, chain: Chain, table: Table) returns (r: Result<Status, Error>)
    requires Admissible(req, article) && table.Valid()
    modifies chain, table
    ensures table.Valid()
    ensures var o := Saga(req, article, attrs, history, stamp, old(chain.script), old(table.items));
      && r == o.result
      && table.items == o.items
      && chain.calls == old(chain.calls) + o.calls
      && chain.script == Drop(old(chain.script), |o.calls|)
  {
    ghost var script, items, calls := chain.script, table.items, chain.calls;
    if article.userId == req.buyer {
      return Err(CannotPurchaseOwnArticle);
    }
    var sellerAddress := SellerAddress(attrs);
    if sellerAddress.Err? {
      return Err(sellerAddress.error);
    }
    var purchaseTransaction := CreatePurchaseTransaction(chain, req, sellerAddress.value);
    ghost var rest := AfterPurchaseTip(req, article, history, stamp, script, items);
    assert Saga(req, article, attrs, history, stamp, script, items)
        == After(PurchaseTip(req, sellerAddress.value), rest);
    if purchaseTransaction.Err? {
      return Err(purchaseTransaction.error);
    }
    var purchased := PurchaseArticle(table, req, article, history, stamp, purchaseTransaction.value);
    if purchased.Err? {
      return Err(purchased.error);
    }
    ghost var tail := AfterBurnTip(BuyerKey(req), purchaseTransaction.value, chain.script, table.items);
    assert rest == After(BurnTip(req), tail);
    r := SettlePurchase(chain, table, req, purchaseTransaction.value);
    DropDrop(script, 1, |chain.calls| - |calls| - 1);
  }

  /**
   * The rest of `exec_main_proc` once the record exists: the burn tip, the
   * burn update, the polling, and the status update.
   */
  method SettlePurchase(chain: Chain, table: Table, req: Request, purchaseTransaction: string)
    returns (r: Result<Status, Error>)
    requires 0 <= req.price < DecimalExactLimit && table.Valid() && BuyerKey(req) in table.items
    modifies chain, table
    ensures table.Valid()
    ensures var o := After(BurnTip(req), AfterBurnTip(BuyerKey(req), purchaseTransaction, old(chain.script), old(table.items)));
      && r == o.result
      && table.items == o.items
      && chain.calls == old(chain.calls) + o.calls
      && chain.script == Drop(old(chain.script), |o.calls|)
  {
    ghost var script, calls := chain.script, chain.calls;
    var burnTransaction := BurnTransaction(chain, req);
    if burnTransaction.Err? {
      return Err(burnTransaction.error);
    }
    table.Update(BuyerKey(req), Field.BurnTransaction, burnTransaction.value);
    var transactionStatus := PollToPrivateChain(chain, purchaseTransaction);
    DropDrop(script, 1, |chain.calls| - |calls| - 1);
    if transactionStatus.Err? {
      return Err(transactionStatus.error);
    }
    table.Update(BuyerKey(req), Field.Status, transactionStatus.value.Text());
    return Ok(transactionStatus.value);
  }
}
