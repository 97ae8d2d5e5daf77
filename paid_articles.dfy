/**
 * The paid-articles table: items keyed by (article_id, user_id), written by
 * a conditional `put_item` and two `update_item` calls
 * (me_articles_purchase_create.py).
 */
module PaidArticles {
  import opened Wrappers

  /** A DynamoDB value that is either a string or a number (`history_created_at` is one or the other). */
  datatype AttrValue = S(s: string) | N(n: int)

  /** The table's key: the article and the BUYER (not the seller). */
  datatype Key = Key(articleId: string, userId: string)

  /**
   * One item. The key attributes are always present; the others are
   * `None` when the item does not have them, as in an item created by an
   * update of a missing key.
   */
  datatype Record = Record(
    articleId: string,
    userId: string,
    articleUserId: Option<string>,
    articleTitle: Option<string>,
    purchaseTransaction: Option<string>,
    sortKey: Option<int>,
    price: Option<int>,
    historyCreatedAt: Option<AttrValue>,
    createdAt: Option<int>,
    burnTransaction: Option<string>,
    status: Option<string>)

  /** The two attributes the handler sets by `update_item`. */
  datatype Field = BurnTransaction | Status

  /** An item holding nothing but the key attributes of `key`. */
  function KeyOnly(key: Key): (rec: Record)
    ensures Keyed(key, rec)
  {
    Record(key.articleId, key.userId, None, None, None, None, None, None, None, None, None)
  }

  /** `rec` carries the key attributes of `key`. */
  predicate Keyed(key: Key, rec: Record)
  {
    rec.articleId == key.articleId && rec.userId == key.userId
  }

  /** Every stored item carries its own key. */
  ghost predicate WellKeyed(items: map<Key, Record>)
  {
    forall key :: key in items ==> Keyed(key, items[key])
  }

  /** `SET field = value` on one item: that attribute changes, no other. */
  function Set(rec: Record, field: Field, value: string): (r: Record)
    ensures field == BurnTransaction ==> r.burnTransaction == Some(value) && r.status == rec.status
    ensures field == Status ==> r.status == Some(value) && r.burnTransaction == rec.burnTransaction
    ensures r.(burnTransaction := rec.burnTransaction, status := rec.status) == rec
  {
    match field
    case BurnTransaction => rec.(burnTransaction := Some(value))
    case Status => rec.(status := Some(value))
  }

  /**
   * `update_item(Key=key, UpdateExpression='set field = :v')`. DynamoDB
   * upserts: a missing key gets a new item holding its key attributes and
   * the one set attribute. No other item changes.
   */
  function WithAttribute(items: map<Key, Record>, key: Key, field: Field, value: string): (r: map<Key, Record>)
    ensures key in r && r - {key} == items - {key}
    ensures key in items ==> r[key] == Set(items[key], field, value)
    ensures key !in items ==> r[key] == Set(KeyOnly(key), field, value)
    ensures WellKeyed(items) ==> WellKeyed(r)
  {
    var base := if key in items then items[key] else KeyOnly(key);
    items[key := Set(base, field, value)]
  }

  class Table {
    var items: map<Key, Record>

    ghost predicate Valid()
      reads this
    {
      WellKeyed(items)
    }

    constructor (initial: map<Key, Record>)
      requires WellKeyed(initial)
      ensures Valid() && items == initial
    {
      items := initial;
    }

    /**
     * `put_item(Item=rec, ConditionExpression='attribute_not_exists(user_id)')`:
     * refused (ConditionalCheckFailedException) when an item with the same
     * key exists, since every stored item has a `user_id`.
     */
    method PutIfAbsent(key: Key, rec: Record) returns (written: bool)
      requires Valid() && Keyed(key, rec)
      modifies this
      ensures Valid()
      ensures written <==> key !in old(items)
      ensures items == if written then old(items)[key := rec] else old(items)
    {
      written := key !in items;
      if written {
        items := items[key := rec];
      }
    }

    /** `update_item` setting one attribute of the item at `key`. */
    method Update(key: Key, field: Field, value: string)
      requires Valid()
      modifies this
      ensures Valid()
      ensures items == WithAttribute(old(items), key, field, value)
    {
      items := WithAttribute(items, key, field, value);
    }
  }
}
