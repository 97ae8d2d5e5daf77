/**
 * The private chain as the handler sees it: requests posted to
 * `/production/wallet/tip` and `/production/transaction/receipt`, each
 * answered by the next response of a fixed script, and the handling of a
 * tip response (me_articles_purchase_create.py).
 */
module Ledger {
  import opened Wrappers
  import opened Json
  import opened Errors

  /** A request to the private chain; the signed HTTP transport is not modelled. */
  datatype Call =
    | Tip(fromAddress: string, toAddress: string, tipValue: string)
    | Receipt(transactionHash: string)

  /** `s` without its first `n` elements, or empty when it is shorter. */
  function Drop<T>(s: seq<T>, n: nat): (r: seq<T>)
    ensures n <= |s| ==> r == s[n..]
    ensures n >= |s| ==> r == []
  {
    if n <= |s| then s[n..] else []
  }

  lemma DropDrop<T>(s: seq<T>, a: nat, b: nat)
    ensures Drop(Drop(s, a), b) == Drop(s, a + b)
  {
  }

  /** The `i`-th response of a script; `None` once the script is used up. */
  function Reply(script: seq<Value>, i: nat): Option<Value>
  {
    if i < |script| then Some(script[i]) else None
  }

  /** A ledger that answers each request with the next response of its script. */
  class Chain {
    /** The responses still to come, in order. */
    var script: seq<Value>
    /** Every request posted so far, in order. */
    var calls: seq<Call>

    constructor (responses: seq<Value>)
      ensures script == responses && calls == []
    {
      script := responses;
      calls := [];
    }

    /** `requests.post`: logs the request and consumes one response, if any is left. */
    method Post(call: Call) returns (response: Option<Value>)
      modifies this
      ensures calls == old(calls) + [call]
      ensures script == Drop(old(script), 1)
      ensures response == Reply(old(script), 0)
    {
      calls := calls + [call];
      if script == [] {
        response := None;
      } else {
        response := Some(script[0]);
        script := script[1..];
      }
    }

    /** Posts a tip and reads the transaction id out of the response. */
    method SubmitTip(call: Call) returns (r: Result<string, Error>)
      requires call.Tip?
      modifies this
      ensures calls == old(calls) + [call]
      ensures script == Drop(old(script), 1)
      ensures r == TipOutcome(Reply(old(script), 0))
    {
      var response := Post(call);
      r := TipOutcome(response);
    }
  }

  /** `s.replace('"', '')`. */
  function RemoveQuotes(s: string): (r: string)
    ensures '"' !in r
    ensures '"' !in s ==> r == s
  {
    if s == [] then []
    else (if s[0] == '"' then [] else [s[0]]) + RemoveQuotes(s[1..])
  }

  /** Only the quotes go: every other character keeps its number of occurrences. */
  lemma {:induction false} RemoveQuotesKeepsOthers(s: string)
    ensures |RemoveQuotes(s)| == |s| - multiset(s)['"']
    ensures forall c :: c != '"' ==> multiset(RemoveQuotes(s))[c] == multiset(s)[c]
  {
    if s != [] {
      assert s == [s[0]] + s[1..];
      RemoveQuotesKeepsOthers(s[1..]);
    }
  }

  lemma RemoveQuotesCons(a: string, b: string)
    requires a != []
    ensures RemoveQuotes(a + b) == (if a[0] == '"' then [] else [a[0]]) + RemoveQuotes(a[1..] + b)
  {
    assert (a + b)[0] == a[0] && (a + b)[1..] == a[1..] + b;
  }

  /** Removing quotes works piece by piece. */
  lemma {:induction false} RemoveQuotesConcat(a: string, b: string)
    ensures RemoveQuotes(a + b) == RemoveQuotes(a) + RemoveQuotes(b)
  {
    if a == [] {
      assert a + b == b;
    } else {
      RemoveQuotesCons(a, b);
      RemoveQuotesConcat(a[1..], b);
      var head := if a[0] == '"' then [] else [a[0]];
      calc {
        RemoveQuotes(a + b);
        head + RemoveQuotes(a[1..] + b);
        head + (RemoveQuotes(a[1..]) + RemoveQuotes(b));
        (head + RemoveQuotes(a[1..])) + RemoveQuotes(b);
      }
    }
  }

  /** A transaction hash that the ledger returns JSON-quoted comes back bare. */
  lemma QuotedHashUnwrapped(hash: string)
    requires '"' !in hash
    ensures RemoveQuotes("\"" + hash + "\"") == hash
  {
    RemoveQuotesConcat("\"" + hash, "\"");
    RemoveQuotesConcat("\"", hash);
  }

  /**
   * A successful tip response whose `result` is the JSON-quoted transaction
   * hash yields the bare hash, whatever falsy `error` accompanies it.
   */
  lemma TipAccepted(error: Value, hash: string)
    requires !Truthy(error) && '"' !in hash
    ensures TipOutcome(Some(JObject(map["error" := error, "result" := JString("\"" + hash + "\"")])))
            == Ok(hash)
  {
    var body := JObject(map["error" := error, "result" := JString("\"" + hash + "\"")]);
    assert Get(body, "error") == error;
    assert Get(body, "result") == JString("\"" + hash + "\"");
    QuotedHashUnwrapped(hash);
  }

  /**
   * The handling of a tip response: a truthy `error` raises
   * SendTransactionError; otherwise `result` with every `"` removed is the
   * transaction id. A body that is not an object, or whose `result` is not
   * a string, makes Python raise.
   */
  function TipOutcome(response: Option<Value>): (r: Result<string, Error>)
    ensures response == None ==> r == Err(LedgerUnreachable)
    ensures response.Some? && response.value.JObject? && Truthy(Get(response.value, "error")) ==>
              r == Err(SendTransaction(Get(response.value, "error")))
    ensures response.Some? && !response.value.JObject? ==> r == Err(MalformedLedgerResponse)
    ensures r.Ok? ==> response.Some? && response.value.JObject?
                      && !Truthy(Get(response.value, "error"))
                      && Get(response.value, "result").JString?
                      && r.value == RemoveQuotes(Get(response.value, "result").s)
    ensures r.Ok? ==> '"' !in r.value
    ensures response.Some? && response.value.JObject? && !Truthy(Get(response.value, "error")) ==>
              if Get(response.value, "result").JString?
              then r == Ok(RemoveQuotes(Get(response.value, "result").s))
              else r == Err(MalformedLedgerResponse)
  {
    match response
    case None => Err(LedgerUnreachable)
    case Some(body) =>
      if !body.JObject? then Err(MalformedLedgerResponse)
      else if Truthy(Get(body, "error")) then Err(SendTransaction(Get(body, "error")))
      else match Get(body, "result")
        case JString(s) => Ok(RemoveQuotes(s))
        case _ => Err(MalformedLedgerResponse)
  }
}
