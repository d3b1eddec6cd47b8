/**
 * The Algorand node client, as the server sees it: five requests, each of
 * which either answers or rejects with an error message. The node is an
 * oracle fixed in advance. Its answers to `pendingTransactionInformation`
 * are given by poll number, and it records every request it receives in a
 * log, so that callers can be specified by the requests they make.
 */
module Algod {
  import opened Js

  type Address = string
  type TxId = string
  type Bytes = seq<bv8>

  /** The two fields of a pending-transaction record that the server reads. */
  datatype PendingInfo = PendingInfo(confirmedRound: Option<int>, assetIndex: Option<nat>)

  /** `pendingInfo['confirmed-round']` is present, truthy and positive. */
  predicate IsConfirmed(p: PendingInfo)
  {
    p.confirmedRound.Some? && p.confirmedRound.value > 0
  }

  /** The node's suggested parameters, passed through to the transaction unread. */
  datatype SuggestedParams = SuggestedParams(
    fee: nat, firstRound: nat, lastRound: nat, genesisId: string, genesisHash: string)

  /** What a foreign call produces: a value, or the message of the error it throws. */
  datatype Reply<+T> = Answer(value: T) | Failure(message: string)

  /** One request made to the node. */
  datatype Call =
    | Status
    | StatusAfterBlock(round: int)
    | PendingInformation(txId: TxId)
    | TransactionParams
    | SendRaw(blob: Bytes)

  /** Answer to the `k`-th pending-status query; past the scripted answers the transaction is still pending. */
  function PendingReplyAt(replies: seq<Reply<PendingInfo>>, k: nat): Reply<PendingInfo>
  {
    if k < |replies| then replies[k] else Answer(PendingInfo(None, None))
  }

  class AlgodClient {
    /** The last round the node reports. */
    var round: int
    /** Every request received, in order. */
    var log: seq<Call>
    /** Number of pending-status queries answered so far. */
    var polls: nat
    const paramsReply: Reply<SuggestedParams>
    const sendReply: Reply<TxId>
    const pendingReplies: seq<Reply<PendingInfo>>

    constructor (round: int, paramsReply: Reply<SuggestedParams>, sendReply: Reply<TxId>,
                 pendingReplies: seq<Reply<PendingInfo>>)
      ensures this.round == round && log == [] && polls == 0
      ensures this.paramsReply == paramsReply && this.sendReply == sendReply
      ensures this.pendingReplies == pendingReplies
    {
      this.round := round;
      this.paramsReply := paramsReply;
      this.sendReply := sendReply;
      this.pendingReplies := pendingReplies;
      log := [];
      polls := 0;
    }

    /** `status()`: the node's `last-round`. */
    method GetStatus() returns (lastRound: int)
      modifies this`log
      ensures lastRound == round
      ensures log == old(log) + [Status]
    {
      lastRound := round;
      log := log + [Status];
    }

    /** `statusAfterBlock(r)`: returns once the node has reached round `r`. */
    method AwaitRound(r: int)
      modifies this`log, this`round
      ensures round == if r > old(round) then r else old(round)
      ensures log == old(log) + [StatusAfterBlock(r)]
    {
      if r > round {
        round := r;
      }
      log := log + [StatusAfterBlock(r)];
    }

    /** `pendingTransactionInformation(txId)`: the next scripted answer. */
    method PendingTransactionInformation(txId: TxId) returns (reply: Reply<PendingInfo>)
      modifies this`log, this`polls
      ensures reply == PendingReplyAt(pendingReplies, old(polls))
      ensures polls == old(polls) + 1
      ensures log == old(log) + [PendingInformation(txId)]
    {
      reply := PendingReplyAt(pendingReplies, polls);
      polls := polls + 1;
      log := log + [PendingInformation(txId)];
    }

    /** `getTransactionParams()`. */
    method GetTransactionParams() returns (reply: Reply<SuggestedParams>)
      modifies this`log
      ensures reply == paramsReply
      ensures log == old(log) + [TransactionParams]
    {
      reply := paramsReply;
      log := log + [TransactionParams];
    }

    /** `sendRawTransaction(blob)`: the transaction id, or the node's rejection. */
    method SendRawTransaction(blob: Bytes) returns (reply: Reply<TxId>)
      modifies this`log
      ensures reply == sendReply
      ensures log == old(log) + [SendRaw(blob)]
    {
      reply := sendReply;
      log := log + [SendRaw(blob)];
    }
  }
}
