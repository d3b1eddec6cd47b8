/**
 * `waitForConfirmation(algodClient, txId, timeout)`: read the node's last
 * round once, then poll the pending status of `txId` at most `timeout`
 * times, returning the first record with a positive confirmed round and,
 * after every other answer, waiting for the next round. When the budget runs
 * out it throws "Transaction not confirmed after timeout".
 *
 * `Confirm` states the whole run (how it ends and every request it makes) as
 * a function of the node's scripted answers; `WaitForConfirmation` is the loop
 * itself, proved to act as `Confirm` says; the lemmas say what `Confirm` means.
 */
module Confirmation {
  import opened Js
  import opened Algod

  const TimeoutMessage := "Transaction not confirmed after timeout"

  /** How the polling loop ends. */
  datatype Ending = Confirmed(info: PendingInfo) | Failed(message: string) | Exhausted

  /** What `waitForConfirmation` resolves with, or the message it throws. */
  datatype Outcome = Returned(info: PendingInfo) | Thrown(message: string)

  function OutcomeOf(e: Ending): Outcome
  {
    match e
    case Confirmed(p) => Returned(p)
    case Failed(m) => Thrown(m)
    case Exhausted => Thrown(TimeoutMessage)
  }

  /** How a run ends, and the node requests it makes after reading the start round. */
  datatype Trace = Trace(ending: Ending, calls: seq<Call>)

  /** Poll `k` of this run (the node's answer number `base + k`) neither confirms nor fails. */
  predicate StillPending(replies: seq<Reply<PendingInfo>>, base: nat, k: nat)
  {
    var r := PendingReplyAt(replies, base + k);
    r.Answer? && !IsConfirmed(r.value)
  }

  /** The ending of a run whose poll stopped the loop with reply `r`. */
  function SettledBy(r: Reply<PendingInfo>): Ending
  {
    match r
    case Failure(m) => Failed(m)
    case Answer(p) => Confirmed(p)
  }

  /**
   * Iterations `i`, `i + 1`, ... of the loop, `lastRound` being the round
   * tracked so far. The run sends nothing exactly when no iteration is left,
   * at most one query and one wait per remaining iteration, and starts with a
   * query. It times out exactly when it ends on a wait: a settled run ends on
   * the query that settled it.
   */
  function Poll(replies: seq<Reply<PendingInfo>>, base: nat, txId: TxId, timeout: int,
                i: nat, lastRound: int): (t: Trace)
    ensures t.calls == [] <==> timeout <= i
    ensures |t.calls| <= 2 * (if i < timeout then timeout - i else 0)
    ensures t.calls != [] ==> t.calls[0] == PendingInformation(txId)
    ensures t.ending.Exhausted? <==> |t.calls| % 2 == 0
    decreases timeout - i
  {
    if i >= timeout then Trace(Exhausted, [])
    else
      match PendingReplyAt(replies, base + i)
      case Failure(m) => Trace(Failed(m), [PendingInformation(txId)])
      case Answer(p) =>
        if IsConfirmed(p) then Trace(Confirmed(p), [PendingInformation(txId)])
        else
          var rest := Poll(replies, base, txId, timeout, i + 1, lastRound + 1);
          Trace(rest.ending, [PendingInformation(txId), StatusAfterBlock(lastRound + 1)] + rest.calls)
  }

  /**
   * The whole run, when the node has answered `base` pending queries before
   * and reports `startRound`: it sends nothing exactly when `timeout <= 0`, and
   * otherwise at most `timeout` query-and-wait pairs.
   */
  function Confirm(replies: seq<Reply<PendingInfo>>, base: nat, txId: TxId, timeout: int,
                   startRound: int): (t: Trace)
    ensures t.calls == [] <==> timeout <= 0
    ensures |t.calls| <= 2 * (if 0 < timeout then timeout else 0)
  {
    Poll(replies, base, txId, timeout, 0, startRound)
  }

  /** The requests of `n` unconfirmed iterations: query `txId`, then wait for the next round. */
  function Rounds(txId: TxId, lastRound: int, n: nat): (calls: seq<Call>)
    ensures |calls| == 2 * n
    decreases n
  {
    if n == 0 then []
    else [PendingInformation(txId), StatusAfterBlock(lastRound + 1)] + Rounds(txId, lastRound + 1, n - 1)
  }

  /** Number of pending-status queries among `calls`. */
  function QueryCount(calls: seq<Call>): nat
  {
    if calls == [] then 0
    else (if calls[0].PendingInformation? then 1 else 0) + QueryCount(calls[1..])
  }

  /** Number of submissions among `calls`. */
  function SendCount(calls: seq<Call>): nat
  {
    if calls == [] then 0
    else (if calls[0].SendRaw? then 1 else 0) + SendCount(calls[1..])
  }

  /** Number of round waits among `calls`. */
  function WaitCount(calls: seq<Call>): nat
  {
    if calls == [] then 0
    else (if calls[0].StatusAfterBlock? then 1 else 0) + WaitCount(calls[1..])
  }

  lemma {:induction false} QueryCountConcat(a: seq<Call>, b: seq<Call>)
    ensures QueryCount(a + b) == QueryCount(a) + QueryCount(b)
  {
    if a == [] {
      assert a + b == b;
    } else {
      assert (a + b)[1..] == a[1..] + b;
      QueryCountConcat(a[1..], b);
    }
  }

  lemma {:induction false} SendCountConcat(a: seq<Call>, b: seq<Call>)
    ensures SendCount(a + b) == SendCount(a) + SendCount(b)
  {
    if a == [] {
      assert a + b == b;
    } else {
      assert (a + b)[1..] == a[1..] + b;
      SendCountConcat(a[1..], b);
    }
  }

  lemma {:induction false} WaitCountConcat(a: seq<Call>, b: seq<Call>)
    ensures WaitCount(a + b) == WaitCount(a) + WaitCount(b)
  {
    if a == [] {
      assert a + b == b;
    } else {
      assert (a + b)[1..] == a[1..] + b;
      WaitCountConcat(a[1..], b);
    }
  }

  lemma CallCountsConcat(a: seq<Call>, b: seq<Call>)
    ensures QueryCount(a + b) == QueryCount(a) + QueryCount(b)
    ensures SendCount(a + b) == SendCount(a) + SendCount(b)
    ensures WaitCount(a + b) == WaitCount(a) + WaitCount(b)
  {
    QueryCountConcat(a, b);
    SendCountConcat(a, b);
    WaitCountConcat(a, b);
  }

  lemma SingleCallCounts(c: Call)
    ensures QueryCount([c]) == (if c.PendingInformation? then 1 else 0)
    ensures SendCount([c]) == (if c.SendRaw? then 1 else 0)
    ensures WaitCount([c]) == (if c.StatusAfterBlock? then 1 else 0)
  {
    assert [c][1..] == [];
  }

  /** The `k`-th iteration queries `txId` and then waits for round `lastRound + k + 1`. */
  lemma {:induction false} RoundsAt(txId: TxId, lastRound: int, n: nat, k: nat)
    requires k < n
    ensures Rounds(txId, lastRound, n)[2 * k] == PendingInformation(txId)
    ensures Rounds(txId, lastRound, n)[2 * k + 1] == StatusAfterBlock(lastRound + k + 1)
    decreases n
  {
    if k > 0 {
      RoundsAt(txId, lastRound + 1, n - 1, k - 1);
    }
  }

  /** Appending one more unconfirmed iteration. */
  lemma {:induction false} RoundsSnoc(txId: TxId, lastRound: int, n: nat)
    ensures Rounds(txId, lastRound, n + 1)
         == Rounds(txId, lastRound, n) + [PendingInformation(txId), StatusAfterBlock(lastRound + n + 1)]
    decreases n
  {
    if n > 0 {
      RoundsSnoc(txId, lastRound + 1, n - 1);
    }
  }

  /** `n` unconfirmed iterations make `n` queries, no submission, and wait for `n` consecutive rounds. */
  lemma {:induction false} RoundsCounts(txId: TxId, lastRound: int, n: nat)
    ensures QueryCount(Rounds(txId, lastRound, n)) == n
    ensures SendCount(Rounds(txId, lastRound, n)) == 0
    ensures WaitCount(Rounds(txId, lastRound, n)) == n
    decreases n
  {
    if n > 0 {
      var head := [PendingInformation(txId), StatusAfterBlock(lastRound + 1)];
      CallCountsConcat(head, Rounds(txId, lastRound + 1, n - 1));
      assert head[1..] == [StatusAfterBlock(lastRound + 1)];
      RoundsCounts(txId, lastRound + 1, n - 1);
    }
  }

  /**
   * When polls `i .. j - 1` are all still pending and poll `j` (within the
   * budget) confirms or fails, the run ends there, by that reply, after the
   * `j - i` unconfirmed iterations and one last query.
   */
  lemma {:induction false} PollSettles(replies: seq<Reply<PendingInfo>>, base: nat, txId: TxId,
                                       timeout: int, i: nat, lastRound: int, j: nat)
    requires i <= j < timeout
    requires forall k: nat :: i <= k < j ==> StillPending(replies, base, k)
    requires !StillPending(replies, base, j)
    ensures Poll(replies, base, txId, timeout, i, lastRound).ending == SettledBy(PendingReplyAt(replies, base + j))
    ensures Poll(replies, base, txId, timeout, i, lastRound).calls
         == Rounds(txId, lastRound, j - i) + [PendingInformation(txId)]
    decreases j - i
  {
    if i < j {
      assert StillPending(replies, base, i);
      PollSettles(replies, base, txId, timeout, i + 1, lastRound + 1, j);
    }
  }

  /**
   * When every poll from `i` up to the budget is still pending, the run ends
   * with the budget exhausted, after one unconfirmed iteration per remaining poll.
   */
  lemma {:induction false} PollExhausts(replies: seq<Reply<PendingInfo>>, base: nat, txId: TxId,
                                        timeout: int, i: nat, lastRound: int)
    requires forall k: nat :: i <= k < timeout ==> StillPending(replies, base, k)
    ensures Poll(replies, base, txId, timeout, i, lastRound).ending == Exhausted
    ensures Poll(replies, base, txId, timeout, i, lastRound).calls
         == Rounds(txId, lastRound, if i < timeout then timeout - i else 0)
    decreases timeout - i
  {
    if i < timeout {
      assert StillPending(replies, base, i);
      PollExhausts(replies, base, txId, timeout, i + 1, lastRound + 1);
    }
  }

  /** The first poll, among the first `n`, that confirms or fails. */
  lemma {:induction false} FirstSettled(replies: seq<Reply<PendingInfo>>, base: nat, n: nat) returns (j: nat)
    requires exists k: nat :: k < n && !StillPending(replies, base, k)
    ensures j < n && !StillPending(replies, base, j)
    ensures forall k: nat :: k < j ==> StillPending(replies, base, k)
  {
    if forall k: nat :: k < n - 1 ==> StillPending(replies, base, k) {
      j := n - 1;
    } else {
      j := FirstSettled(replies, base, n - 1);
    }
  }

  /**
   * Every run makes at most `timeout` queries (none when `timeout <= 0`), never
   * submits, and waits exactly once per query that neither confirmed nor failed.
   */
  lemma {:induction false} PollBudget(replies: seq<Reply<PendingInfo>>, base: nat, txId: TxId,
                                      timeout: int, i: nat, lastRound: int)
    ensures var t := Poll(replies, base, txId, timeout, i, lastRound);
      && QueryCount(t.calls) <= (if i < timeout then timeout - i else 0)
      && SendCount(t.calls) == 0
      && (if t.ending.Exhausted? then WaitCount(t.calls) == QueryCount(t.calls)
          else WaitCount(t.calls) + 1 == QueryCount(t.calls))
    decreases timeout - i
  {
    if i < timeout {
      var r := PendingReplyAt(replies, base + i);
      var head := [PendingInformation(txId), StatusAfterBlock(lastRound + 1)];
      if r.Answer? && !IsConfirmed(r.value) {
        var rest := Poll(replies, base, txId, timeout, i + 1, lastRound + 1);
        PollBudget(replies, base, txId, timeout, i + 1, lastRound + 1);
        RoundsCounts(txId, lastRound, 1);
        assert Rounds(txId, lastRound, 1) == head;
        CallCountsConcat(head, rest.calls);
      } else {
        SingleCallCounts(PendingInformation(txId));
      }
    }
  }

  /** The run times out exactly when none of the first `timeout` polls confirms or fails. */
  lemma ConfirmExhaustedIff(replies: seq<Reply<PendingInfo>>, base: nat, txId: TxId,
                            timeout: int, startRound: int)
    ensures Confirm(replies, base, txId, timeout, startRound).ending == Exhausted
        <==> forall k: nat :: k < timeout ==> StillPending(replies, base, k)
  {
    if forall k: nat :: k < timeout ==> StillPending(replies, base, k) {
      PollExhausts(replies, base, txId, timeout, 0, startRound);
    } else {
      var j := FirstSettled(replies, base, timeout as nat);
      PollSettles(replies, base, txId, timeout, 0, startRound, j);
    }
  }

  /** Poll `j` is the first of this run to report a positive confirmed round, within the budget. */
  predicate FirstConfirmedAt(replies: seq<Reply<PendingInfo>>, base: nat, timeout: int, j: nat)
  {
    && j < timeout
    && (forall k: nat :: k < j ==> StillPending(replies, base, k))
    && PendingReplyAt(replies, base + j).Answer?
    && IsConfirmed(PendingReplyAt(replies, base + j).value)
  }

  /**
   * The run returns a record exactly when some poll within the budget reports
   * a positive confirmed round before any poll fails, and the record returned
   * is the answer to the first such poll.
   */
  lemma ConfirmReturnsFirstConfirmed(replies: seq<Reply<PendingInfo>>, base: nat, txId: TxId,
                                     timeout: int, startRound: int)
    ensures Confirm(replies, base, txId, timeout, startRound).ending.Confirmed?
        <==> exists j: nat :: FirstConfirmedAt(replies, base, timeout, j)
    ensures forall j: nat :: FirstConfirmedAt(replies, base, timeout, j) ==>
        Confirm(replies, base, txId, timeout, startRound).ending
          == Confirmed(PendingReplyAt(replies, base + j).value)
  {
    var t := Confirm(replies, base, txId, timeout, startRound);
    forall j: nat | FirstConfirmedAt(replies, base, timeout, j)
      ensures t.ending == Confirmed(PendingReplyAt(replies, base + j).value)
    {
      PollSettles(replies, base, txId, timeout, 0, startRound, j);
    }
    if t.ending.Confirmed? {
      ConfirmExhaustedIff(replies, base, txId, timeout, startRound);
      var j := FirstSettled(replies, base, timeout as nat);
      PollSettles(replies, base, txId, timeout, 0, startRound, j);
      assert FirstConfirmedAt(replies, base, timeout, j);
    }
  }

  /** With no budget the run throws the timeout at once, without a single query. */
  lemma ConfirmWithoutBudget(replies: seq<Reply<PendingInfo>>, base: nat, txId: TxId, timeout: int,
                             startRound: int)
    requires timeout <= 0
    ensures Confirm(replies, base, txId, timeout, startRound) == Trace(Exhausted, [])
    ensures OutcomeOf(Confirm(replies, base, txId, timeout, startRound).ending) == Thrown(TimeoutMessage)
  {
  }

  /** A run whose poll `j` is the first to confirm or fail: how it ends and what it asks of the node. */
  lemma ConfirmSettledRun(replies: seq<Reply<PendingInfo>>, base: nat, txId: TxId, timeout: int,
                          startRound: int, j: nat)
    requires j < timeout
    requires forall k: nat :: k < j ==> StillPending(replies, base, k)
    requires !StillPending(replies, base, j)
    ensures var t := Confirm(replies, base, txId, timeout, startRound);
      && t.ending == SettledBy(PendingReplyAt(replies, base + j))
      && t.calls == Rounds(txId, startRound, j) + [PendingInformation(txId)]
      && QueryCount(t.calls) == j + 1
      && WaitCount(t.calls) == j
  {
    PollSettles(replies, base, txId, timeout, 0, startRound, j);
    RoundsCounts(txId, startRound, j);
    SingleCallCounts(PendingInformation(txId));
    CallCountsConcat(Rounds(txId, startRound, j), [PendingInformation(txId)]);
  }

  /** A run in which no poll within the budget confirms or fails. */
  lemma ConfirmExhaustedRun(replies: seq<Reply<PendingInfo>>, base: nat, txId: TxId, timeout: int,
                            startRound: int, n: nat)
    requires n == (if timeout > 0 then timeout else 0)
    requires forall k: nat :: k < timeout ==> StillPending(replies, base, k)
    ensures var t := Confirm(replies, base, txId, timeout, startRound);
      && t.ending == Exhausted
      && t.calls == Rounds(txId, startRound, n)
      && QueryCount(t.calls) == n
      && WaitCount(t.calls) == n
  {
    PollExhausts(replies, base, txId, timeout, 0, startRound);
    RoundsCounts(txId, startRound, n);
  }

  /**
   * In every run, request `2k` queries `txId` and request `2k + 1` waits for
   * round `startRound + k + 1`: the `k`-th wait is for the round after the
   * `k`-th one past the start, and nothing but `txId` is ever queried.
   */
  lemma ConfirmCallsAt(replies: seq<Reply<PendingInfo>>, base: nat, txId: TxId, timeout: int,
                       startRound: int, k: nat)
    ensures var calls := Confirm(replies, base, txId, timeout, startRound).calls;
      && (2 * k < |calls| ==> calls[2 * k] == PendingInformation(txId))
      && (2 * k + 1 < |calls| ==> calls[2 * k + 1] == StatusAfterBlock(startRound + k + 1))
  {
    var calls := Confirm(replies, base, txId, timeout, startRound).calls;
    if forall k': nat :: k' < timeout ==> StillPending(replies, base, k') {
      var n: nat := if timeout > 0 then timeout else 0;
      ConfirmExhaustedRun(replies, base, txId, timeout, startRound, n);
      if k < n {
        RoundsAt(txId, startRound, n, k);
      }
    } else {
      var j := FirstSettled(replies, base, timeout as nat);
      ConfirmSettledRun(replies, base, txId, timeout, startRound, j);
      if k < j {
        RoundsAt(txId, startRound, j, k);
      }
    }
  }

  /**
   * The loop of `waitForConfirmation`: the start round is read once, each
   * iteration makes one query, and every query that neither confirms nor fails
   * is followed by a wait for the next round.
   */
  method WaitForConfirmation(node: AlgodClient, txId: TxId, timeout: int) returns (r: Outcome)
    modifies node
    ensures var t := Confirm(node.pendingReplies, old(node.polls), txId, timeout, old(node.round));
      && r == OutcomeOf(t.ending)
      && node.log == old(node.log) + [Status] + t.calls
      && node.polls == old(node.polls) + QueryCount(t.calls)
      && node.round == old(node.round) + WaitCount(t.calls)
  {
    var lastRound := node.GetStatus();
    ghost var start, base, log0 := lastRound, node.polls, node.log;
    var i := 0;
    while i < timeout
      invariant i == 0 || i <= timeout
      invariant lastRound == start + i && node.round == lastRound
      invariant node.polls == base + i
      invariant node.log == log0 + Rounds(txId, start, i)
      invariant forall k: nat :: k < i ==> StillPending(node.pendingReplies, base, k)
      decreases timeout - i
    {
      var pendingInfo := node.PendingTransactionInformation(txId);
      if pendingInfo.Failure? || IsConfirmed(pendingInfo.value) {
        ConfirmSettledRun(node.pendingReplies, base, txId, timeout, start, i);
        return if pendingInfo.Failure? then Thrown(pendingInfo.message) else Returned(pendingInfo.value);
      }
      node.AwaitRound(lastRound + 1);
      RoundsSnoc(txId, start, i);
      lastRound := lastRound + 1;
      i := i + 1;
    }
    ConfirmExhaustedRun(node.pendingReplies, base, txId, timeout, start, i);
    return Thrown(TimeoutMessage);
  }
}
