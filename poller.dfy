/**
 * `__polling_to_private_chain`: up to POLLING_MAX_COUNT - POLLING_INITIAL_COUNT
 * receipt queries for the purchase transaction, ending in 'done', 'fail'
 * or 'doing' (me_articles_purchase_create.py).
 */
module Poller {
  import opened Wrappers
  import opened Json
  import opened Errors
  import opened Ledger

  /** settings.POLLING_INITIAL_COUNT and settings.POLLING_MAX_COUNT. */
  const PollingInitialCount: nat := 0
  const PollingMaxCount: nat := 3

  /** The number of receipt queries one invocation may make. */
  const PollingBudget: nat := PollingMaxCount - PollingInitialCount

  /** The settlement status written to the record and returned in the body. */
  datatype Status = Done | Fail | Doing
  {
    function Text(): string
    {
      match this
      case Done => "done"
      case Fail => "fail"
      case Doing => "doing"
    }
  }

  /** What one receipt response makes the loop do. */
  datatype Attempt =
    | Failed              // the response carries a truthy `error`
    | Mined               // the first log entry has type 'mined'
    | Pending             // go round again
    | Raised(error: Error) // Python raises out of the loop

  /** The body of one loop iteration after the request: lines 234-243. */
  function Classify(response: Option<Value>): (a: Attempt)
    ensures response == None ==> a == Raised(LedgerUnreachable)
    ensures response.Some? && !response.value.JObject? ==> a == Raised(MalformedLedgerResponse)
    ensures a == Failed <==>
              response.Some? && response.value.JObject? && Truthy(Get(response.value, "error"))
    ensures a == Mined <==>
              response.Some? && response.value.JObject? && !Truthy(Get(response.value, "error"))
              && var result := Get(response.value, "result");
                 result.JObject? && "logs" in result.fields
                 && var logs := result.fields["logs"];
                    logs.JArray? && |logs.elems| > 0 && logs.elems[0].JObject?
                    && Get(logs.elems[0], "type") == JString("mined")
    ensures a == Pending <==>
              response.Some? && response.value.JObject? && !Truthy(Get(response.value, "error"))
              && var result := Get(response.value, "result");
                 || result == JNull
                 || (result.JObject? && "logs" in result.fields
                     && var logs := result.fields["logs"];
                        || EqualsZero(logs)
                        || (logs.JArray? && |logs.elems| > 0 && logs.elems[0].JObject?
                            && Get(logs.elems[0], "type") != JString("mined")))
    ensures a.Raised? ==> a.error == (if response == None then LedgerUnreachable else MalformedLedgerResponse)
  {
    match response
    case None => Raised(LedgerUnreachable)
    case Some(body) =>
      if !body.JObject? then Raised(MalformedLedgerResponse)
      else if Truthy(Get(body, "error")) then Failed
      else
        var result := Get(body, "result");
        if result == JNull then Pending
        else if !result.JObject? || "logs" !in result.fields then Raised(MalformedLedgerResponse)
        else
          var logs := result.fields["logs"];
          if EqualsZero(logs) then Pending
          else if !logs.JArray? || logs.elems == [] || !logs.elems[0].JObject? then Raised(MalformedLedgerResponse)
          else if Get(logs.elems[0], "type") == JString("mined") then Mined
          else Pending
  }

  /**
   * A receipt whose `logs` is an empty list is not a retry, whatever else
   * the receipt holds: `logs == 0` is false for a list and `logs[0]` raises
   * IndexError.
   */
  lemma EmptyLogsRaise(body: Value)
    requires body.JObject? && !Truthy(Get(body, "error"))
    requires Get(body, "result").JObject? && "logs" in Get(body, "result").fields
    requires Get(body, "result").fields["logs"] == JArray([])
    ensures Classify(Some(body)) == Raised(MalformedLedgerResponse)
  {
  }

  /**
   * A receipt whose first log is mined ends the polling at once with
   * 'done', whatever responses would follow.
   */
  lemma MinedReceiptIsDone(script: seq<Value>, budget: nat)
    requires budget > 0 && |script| > 0
    requires script[0].JObject? && !Truthy(Get(script[0], "error"))
    requires Get(script[0], "result").JObject? && "logs" in Get(script[0], "result").fields
    requires var logs := Get(script[0], "result").fields["logs"];
      logs.JArray? && |logs.elems| > 0 && logs.elems[0].JObject?
      && Get(logs.elems[0], "type") == JString("mined")
    ensures Polling(script, budget) == PollRun(Ok(Done), 1)
  {
    assert Classify(Reply(script, 0)) == Mined;
  }

  /** A receipt that is still `null` is a retry. */
  lemma NullReceiptPending(body: Value)
    requires body.JObject? && !Truthy(Get(body, "error")) && Get(body, "result") == JNull
    ensures Classify(Some(body)) == Pending
  {
  }

  /** How a decisive attempt ends the loop. */
  function Verdict(a: Attempt): Result<Status, Error>
    requires a != Pending
  {
    match a
    case Failed => Ok(Fail)
    case Mined => Ok(Done)
    case Raised(e) => Err(e)
  }

  /** The outcome of the polling loop and how many receipt queries it posted. */
  datatype PollRun = PollRun(outcome: Result<Status, Error>, attempts: nat)

  /** The polling loop over a script of responses, with `budget` queries left. */
  function Polling(script: seq<Value>, budget: nat): (run: PollRun)
    ensures run.attempts <= budget
    ensures run.outcome == Ok(Doing) ==> run.attempts == budget
    ensures run.outcome != Ok(Doing) ==> 1 <= run.attempts
    decreases budget
  {
    if budget == 0 then PollRun(Ok(Doing), 0)
    else
      var a := Classify(Reply(script, 0));
      if a != Pending then PollRun(Verdict(a), 1)
      else
        var rest := Polling(Drop(script, 1), budget - 1);
        PollRun(rest.outcome, rest.attempts + 1)
  }

  lemma ReplyAfterDrop(script: seq<Value>, k: nat)
    ensures Reply(Drop(script, 1), k) == Reply(script, k + 1)
  {
  }

  /**
   * Every query before the last one saw a pending receipt, and the last
   * response decides the outcome; 'doing' means every query was pending.
   */
  lemma {:induction false} PollingTrace(script: seq<Value>, budget: nat)
    ensures var run := Polling(script, budget);
      forall k :: 0 <= k < run.attempts - 1 ==> Classify(Reply(script, k)) == Pending
    ensures var run := Polling(script, budget);
      run.outcome != Ok(Doing) ==>
        var last := Classify(Reply(script, run.attempts - 1));
        last != Pending && run.outcome == Verdict(last)
    ensures var run := Polling(script, budget);
      run.outcome == Ok(Doing) ==> forall k :: 0 <= k < budget ==> Classify(Reply(script, k)) == Pending
    decreases budget
  {
    if budget > 0 && Classify(Reply(script, 0)) == Pending {
      var rest := Drop(script, 1);
      PollingTrace(rest, budget - 1);
      forall k | 1 <= k < budget
        ensures Classify(Reply(script, k)) == Classify(Reply(rest, k - 1))
      {
        ReplyAfterDrop(script, k - 1);
      }
    }
  }

  /** Conversely, the first decisive response within the budget fixes the outcome. */
  lemma {:induction false} PollingStopsAtFirstDecisive(script: seq<Value>, budget: nat, k: nat)
    requires k < budget
    requires forall j :: 0 <= j < k ==> Classify(Reply(script, j)) == Pending
    requires Classify(Reply(script, k)) != Pending
    ensures Polling(script, budget) == PollRun(Verdict(Classify(Reply(script, k))), k + 1)
    decreases k
  {
    if k > 0 {
      var rest := Drop(script, 1);
      assert Classify(Reply(script, 0)) == Pending;
      forall j | 0 <= j <= k - 1
        ensures Reply(rest, j) == Reply(script, j + 1)
      {
        ReplyAfterDrop(script, j);
      }
      PollingStopsAtFirstDecisive(rest, budget - 1, k - 1);
    }
  }

  /** A receipt that stays pending for the whole budget ends the loop with 'doing'. */
  lemma {:induction false} PollingExhausted(script: seq<Value>, budget: nat)
    requires forall j :: 0 <= j < budget ==> Classify(Reply(script, j)) == Pending
    ensures Polling(script, budget) == PollRun(Ok(Doing), budget)
    decreases budget
  {
    if budget > 0 {
      var rest := Drop(script, 1);
      forall j | 0 <= j < budget - 1
        ensures Reply(rest, j) == Reply(script, j + 1)
      {
        ReplyAfterDrop(script, j);
      }
      PollingExhausted(rest, budget - 1);
    }
  }

  /** `n` receipt queries for one transaction. */
  function Receipts(transaction: string, n: nat): (r: seq<Call>)
    ensures |r| == n && forall k :: 0 <= k < n ==> r[k] == Receipt(transaction)
  {
    seq(n, _ => Receipt(transaction))
  }

  /** One pending round consumes one response and one query of the budget. */
  lemma PollingPendingStep(script: seq<Value>, budget: nat)
    requires budget > 0 && Classify(Reply(script, 0)) == Pending
    ensures var rest := Polling(Drop(script, 1), budget - 1);
      Polling(script, budget) == PollRun(rest.outcome, rest.attempts + 1)
  {
  }

  /** A decisive round ends the loop after one query. */
  lemma PollingDecisiveStep(script: seq<Value>, budget: nat)
    requires budget > 0 && Classify(Reply(script, 0)) != Pending
    ensures Polling(script, budget) == PollRun(Verdict(Classify(Reply(script, 0))), 1)
  {
  }

  /** The polling loop, posting one receipt query per round. */
  method PollToPrivateChain(chain: Chain, transaction: string) returns (status: Result<Status, Error>)
    modifies chain
    ensures var run := Polling(old(chain.script), PollingBudget);
      && status == run.outcome
      && chain.calls == old(chain.calls) + Receipts(transaction, run.attempts)
      && chain.script == Drop(old(chain.script), run.attempts)
  {
    ghost var run := Polling(chain.script, PollingBudget);
    ghost var done: nat := 0;
    var count := PollingInitialCount;
    while count < PollingMaxCount
      invariant PollingInitialCount <= count <= PollingMaxCount
      invariant done == count - PollingInitialCount
      invariant chain.calls == old(chain.calls) + Receipts(transaction, done)
      invariant chain.script == Drop(old(chain.script), done)
      invariant var left := Polling(chain.script, PollingMaxCount - count);
        run == PollRun(left.outcome, left.attempts + done)
      decreases PollingMaxCount - count
    {
      ghost var before := chain.script;
      count := count + 1;
      var response := chain.Post(Receipt(transaction));
      DropDrop(old(chain.script), done, 1);
      assert Receipts(transaction, done) + [Receipt(transaction)] == Receipts(transaction, done + 1);
      done := done + 1;
      var attempt := Classify(response);
      if attempt != Pending {
        PollingDecisiveStep(before, PollingMaxCount - count + 1);
        return Verdict(attempt);
      }
      PollingPendingStep(before, PollingMaxCount - count + 1);
    }
    return Ok(Doing);
  }
}
