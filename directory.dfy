/**
 * `__get_user_private_eth_address`: the seller's ledger address, read from
 * the seller's Cognito attribute list (me_articles_purchase_create.py).
 */
module Directory {
  import opened Wrappers
  import opened Errors

  const PrivateEthAddress: string := "custom:private_eth_address"

  /** One entry of a Cognito user's `UserAttributes`. */
  datatype Attribute = Attribute(name: string, value: string)

  /** The list comprehension keeping the attributes named `custom:private_eth_address`, in order. */
  function AddressAttributes(attrs: seq<Attribute>): (r: seq<Attribute>)
    ensures |r| <= |attrs|
    ensures forall k :: 0 <= k < |r| ==> r[k].name == PrivateEthAddress && r[k] in attrs
    ensures forall k :: 0 <= k < |attrs| && attrs[k].name == PrivateEthAddress ==> attrs[k] in r
  {
    if attrs == [] then []
    else
      var rest := AddressAttributes(attrs[1..]);
      assert forall k :: 0 < k < |attrs| ==> attrs[k] == attrs[1..][k - 1];
      if attrs[0].name == PrivateEthAddress then [attrs[0]] + rest else rest
  }

  /**
   * The seller's address: the `Value` of the only matching attribute;
   * RecordNotFoundError unless there is exactly one.
   */
  function SellerAddress(attrs: seq<Attribute>): (r: Result<string, Error>)
    ensures r.Ok? <==> |AddressAttributes(attrs)| == 1
    ensures r.Err? ==> r.error == PrivateEthAddressNotFound
    ensures r.Ok? ==> exists k :: 0 <= k < |attrs| && attrs[k] == Attribute(PrivateEthAddress, r.value)
  {
    var found := AddressAttributes(attrs);
    if |found| != 1 then Err(PrivateEthAddressNotFound)
    else
      assert found[0] in attrs;
      Ok(found[0].value)
  }

  /** With one matching attribute the lookup returns its value. */
  lemma {:induction false} UniqueAddressFound(attrs: seq<Attribute>, i: nat)
    requires i < |attrs| && attrs[i].name == PrivateEthAddress
    requires forall k :: 0 <= k < |attrs| && k != i ==> attrs[k].name != PrivateEthAddress
    ensures AddressAttributes(attrs) == [attrs[i]]
    ensures SellerAddress(attrs) == Ok(attrs[i].value)
  {
    if i == 0 {
      NoAddressAttributes(attrs[1..]);
    } else {
      UniqueAddressFound(attrs[1..], i - 1);
    }
  }

  /** Without a matching attribute the filter is empty. */
  lemma {:induction false} NoAddressAttributes(attrs: seq<Attribute>)
    requires forall k :: 0 <= k < |attrs| ==> attrs[k].name != PrivateEthAddress
    ensures AddressAttributes(attrs) == []
  {
    if attrs != [] {
      NoAddressAttributes(attrs[1..]);
    }
  }

  /** No matching attribute: RecordNotFoundError. */
  lemma MissingAddressRejected(attrs: seq<Attribute>)
    requires forall k :: 0 <= k < |attrs| ==> attrs[k].name != PrivateEthAddress
    ensures SellerAddress(attrs) == Err(PrivateEthAddressNotFound)
  {
    NoAddressAttributes(attrs);
  }

  /** Two matching attributes at different positions: RecordNotFoundError, even when their values agree. */
  lemma {:induction false} AmbiguousAddressRejected(attrs: seq<Attribute>, i: nat, j: nat)
    requires i < j < |attrs|
    requires attrs[i].name == PrivateEthAddress && attrs[j].name == PrivateEthAddress
    ensures |AddressAttributes(attrs)| >= 2
    ensures SellerAddress(attrs) == Err(PrivateEthAddressNotFound)
  {
    if i == 0 {
      assert attrs[1..][j - 1] == attrs[j];
      assert |AddressAttributes(attrs[1..])| >= 1;
    } else {
      AmbiguousAddressRejected(attrs[1..], i - 1, j - 1);
    }
  }
}
