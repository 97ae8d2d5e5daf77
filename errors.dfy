/** The exceptions that end a purchase invocation, one constructor each. */
module Errors {
  import Json

  datatype Error =
    /** ValidationError('Price must be integer'): `int(price)` raised ValueError. */
    | PriceMustBeInteger
    /** ValidationError('Decimal value is not allowed'). */
    | DecimalValueNotAllowed
    /** ValidationError('Can not purchase own article'). */
    | CannotPurchaseOwnArticle
    /** RecordNotFoundError('Record Not Found: private_eth_address'). */
    | PrivateEthAddressNotFound
    /** SendTransactionError carrying the ledger's `error` field. */
    | SendTransaction(detail: Json.Value)
    /** The conditional `put_item` found a record for (article_id, user_id). */
    | DuplicatePurchase
    /** KeyError on `article_info['price']` while matching the price history. */
    | ArticlePriceMissing
    /** TypeError, KeyError, IndexError or AttributeError on a ledger body. */
    | MalformedLedgerResponse
    /** `requests.post` raised: the ledger gave no response. */
    | LedgerUnreachable
}
