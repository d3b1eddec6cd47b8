/**
 * `POST /mint-nft`: check the bearer header, check that the server's admin
 * account is configured, build a one-unit asset-creation transaction from
 * the request body, sign it, submit it, wait for confirmation, and answer
 * with the new asset's id, the transaction id and an explorer link.
 *
 * Token verification, transaction encoding and signing are foreign calls and
 * are parameters here; the node is the `AlgodClient` oracle.
 */
module Mint {
  import opened Js
  import opened Algod
  import opened Confirmation

  const DefaultName := "Gold Certificate"
  const UnitName := "GOLDNFT"
  const PlaceholderPrefix := "https://example.com/metadata/"
  const ExplorerPrefix := "https://testnet.algoexplorer.io/asset/"
  const BearerPrefix := "Bearer "
  const NoAuthMessage := "no auth"
  const NotConfiguredMessage := "Server mint account not configured (MNEMONIC missing)"
  const FallbackMessage := "mint failed"
  /** The round budget the handler gives `waitForConfirmation`. */
  const ConfirmationRounds := 10

  /** The admin account decoded from the configured mnemonic. */
  datatype Account = Account(addr: Address, sk: Bytes)

  /** The JSON body; each property may be absent. */
  datatype MintBody = MintBody(name: Option<string>, desc: Option<string>, metadataUrl: Option<string>)

  /** The object handed to `makeAssetCreateTxnWithSuggestedParamsFromObject`. */
  datatype AssetCreateTxn = AssetCreateTxn(
    from: Address,
    total: nat,
    decimals: nat,
    assetName: string,
    unitName: string,
    assetURL: string,
    defaultFrozen: bool,
    manager: Address,
    reserve: Address,
    freeze: Address,
    clawback: Address,
    suggestedParams: SuggestedParams)

  /** The local algosdk steps: building the transaction, and signing it with a secret key. */
  datatype Sdk = Sdk(
    makeAssetCreateTxn: AssetCreateTxn -> Reply<Bytes>,
    signTxn: (Bytes, Bytes) -> Reply<Bytes>)

  datatype MintResponse =
    | Minted(assetId: Option<nat>, txId: TxId, explorerUrl: string)  // 200 { assetId, txId, explorerUrl }
    | Rejected(status: nat, message: string)                         // status { message }

  /** A destructuring default: it applies only when the property is absent. */
  function ValueOr(v: Option<string>, default: string): string
  {
    if v.Some? then v.value else default
  }

  /** The message of a caught error, `err.message || 'mint failed'`. */
  function ErrorMessage(m: string): (r: string)
    ensures r != ""
    ensures m != "" ==> r == m
    ensures m == "" ==> r == FallbackMessage
  {
    if m == "" then FallbackMessage else m
  }

  /**
   * The asset URL: the supplied metadata URL, or a placeholder followed by the
   * decimal text of the current time, which can be read back from it.
   */
  function AssetUrl(metadataUrl: string, now: nat): (url: string)
    ensures url != ""
    ensures metadataUrl != "" ==> url == metadataUrl
    ensures metadataUrl == "" ==>
      && |url| > |PlaceholderPrefix| && url[..|PlaceholderPrefix|] == PlaceholderPrefix
      && DecimalText(url[|PlaceholderPrefix|..]) && ParseDecimal(url[|PlaceholderPrefix|..]) == now
  {
    if metadataUrl != "" then metadataUrl
    else
      ParseNumberToString(now);
      PlaceholderPrefix + NumberToString(now)
  }

  /** Without a metadata URL, requests made at different instants get different asset URLs. */
  lemma PlaceholderUrlsDistinct(now1: nat, now2: nat)
    requires now1 != now2
    ensures AssetUrl("", now1) != AssetUrl("", now2)
  {
    var n := |PlaceholderPrefix|;
    assert ParseDecimal(AssetUrl("", now1)[n..]) != ParseDecimal(AssetUrl("", now2)[n..]);
  }

  /** A one-of-one certificate fully controlled by `admin`. */
  predicate IsCertificate(t: AssetCreateTxn, admin: Address)
  {
    && t.total == 1 && t.decimals == 0 && t.unitName == UnitName && !t.defaultFrozen
    && t.from == admin && t.manager == admin && t.reserve == admin
    && t.freeze == admin && t.clawback == admin
  }

  /** The asset-creation request built from the body, the node's parameters and the time. */
  function BuildAssetCreate(admin: Address, body: MintBody, params: SuggestedParams, now: nat): (t: AssetCreateTxn)
    ensures IsCertificate(t, admin)
    ensures body.name.None? ==> t.assetName == DefaultName
    ensures body.name.Some? ==> t.assetName == body.name.value
    ensures Truthy(body.metadataUrl) ==> t.assetURL == body.metadataUrl.value
    ensures !Truthy(body.metadataUrl) ==> t.assetURL == AssetUrl("", now)
    ensures t.suggestedParams == params
  {
    var name := ValueOr(body.name, DefaultName);
    var metadataUrl := ValueOr(body.metadataUrl, "");
    AssetCreateTxn(
      from := admin,
      total := 1,
      decimals := 0,
      assetName := name,
      unitName := UnitName,
      assetURL := AssetUrl(metadataUrl, now),
      defaultFrozen := false,
      manager := admin,
      reserve := admin,
      freeze := admin,
      clawback := admin,
      suggestedParams := params)
  }

  /** The description is read from the body but never reaches the transaction. */
  lemma DescriptionUnused(admin: Address, body: MintBody, desc: Option<string>, params: SuggestedParams, now: nat)
    ensures BuildAssetCreate(admin, body, params, now) == BuildAssetCreate(admin, body.(desc := desc), params, now)
  {
  }

  /**
   * The explorer link: the explorer's asset page followed by the decimal text
   * of the asset index, which can be read back from the link; an absent index
   * renders as `undefined`.
   */
  function ExplorerUrl(assetId: Option<nat>): (url: string)
    ensures |ExplorerPrefix| < |url| && url[..|ExplorerPrefix|] == ExplorerPrefix
    ensures assetId.Some? ==>
      DecimalText(url[|ExplorerPrefix|..]) && ParseDecimal(url[|ExplorerPrefix|..]) == assetId.value
    ensures assetId.None? ==> url[|ExplorerPrefix|..] == "undefined"
  {
    if assetId.Some? then
      ParseNumberToString(assetId.value);
      ExplorerPrefix + NumberToString(assetId.value)
    else
      ExplorerPrefix + "undefined"
  }

  /** Different asset ids (or an id and its absence) give different explorer links. */
  lemma ExplorerUrlsDistinct(a: Option<nat>, b: Option<nat>)
    requires a != b
    ensures ExplorerUrl(a) != ExplorerUrl(b)
  {
    if a.Some? && b.Some? {
      var n := |ExplorerPrefix|;
      assert ParseDecimal(ExplorerUrl(a)[n..]) != ParseDecimal(ExplorerUrl(b)[n..]);
    }
  }

  predicate OccursAt(s: string, p: string, i: nat)
  {
    i + |p| <= |s| && s[i..i + |p|] == p
  }

  /** `auth.replace('Bearer ', '')`: the first occurrence of `Bearer ` is removed, wherever it is. */
  function StripBearer(s: string): (r: string)
    ensures |r| == |s| || |r| + |BearerPrefix| == |s|
    ensures |r| == |s| ==> r == s
    decreases |s|
  {
    if OccursAt(s, BearerPrefix, 0) then s[|BearerPrefix|..]
    else if s == [] then []
    else [s[0]] + StripBearer(s[1..])
  }

  /** An occurrence in the tail of `s` is an occurrence in `s` one place later. */
  lemma OccursInTail(s: string, p: string, j: nat)
    requires s != []
    ensures OccursAt(s[1..], p, j) <==> OccursAt(s, p, j + 1)
  {
    if j + 1 + |p| <= |s| {
      assert s[1..][j..j + |p|] == s[j + 1..j + 1 + |p|];
    }
  }

  /** Stripping removes exactly the first occurrence of `Bearer `. */
  lemma {:induction false} StripBearerRemovesFirst(s: string, i: nat)
    requires OccursAt(s, BearerPrefix, i)
    requires forall j: nat :: j < i ==> !OccursAt(s, BearerPrefix, j)
    ensures StripBearer(s) == s[..i] + s[i + |BearerPrefix|..]
    decreases i
  {
    if i > 0 {
      var t := s[1..];
      assert !OccursAt(s, BearerPrefix, 0);
      assert StripBearer(s) == [s[0]] + StripBearer(t);
      forall j: nat | j < i - 1
        ensures !OccursAt(t, BearerPrefix, j)
      {
        OccursInTail(s, BearerPrefix, j);
      }
      OccursInTail(s, BearerPrefix, i - 1);
      StripBearerRemovesFirst(t, i - 1);
      assert s[..i] == [s[0]] + t[..i - 1];
      assert s[i + |BearerPrefix|..] == t[i - 1 + |BearerPrefix|..];
    }
  }

  /** A header without `Bearer ` is passed on unchanged. */
  lemma {:induction false} StripBearerWithoutPrefix(s: string)
    requires forall j: nat :: j <= |s| ==> !OccursAt(s, BearerPrefix, j)
    ensures StripBearer(s) == s
    decreases |s|
  {
    if s != [] {
      var t := s[1..];
      assert !OccursAt(s, BearerPrefix, 0);
      forall j: nat | j <= |t|
        ensures !OccursAt(t, BearerPrefix, j)
      {
        OccursInTail(s, BearerPrefix, j);
      }
      StripBearerWithoutPrefix(t);
      assert s == [s[0]] + t;
    }
  }

  /** The signed certificate, when the local algosdk steps both succeed, or their error. */
  function SignedCertificate(sdk: Sdk, account: Account, body: MintBody, params: SuggestedParams, now: nat): Reply<Bytes>
  {
    var unsigned := sdk.makeAssetCreateTxn(BuildAssetCreate(account.addr, body, params, now));
    if unsigned.Failure? then Failure(unsigned.message) else sdk.signTxn(unsigned.value, account.sk)
  }

  /** What the handler answers, and the requests it sends the node on the way. */
  datatype Exchange = Exchange(response: MintResponse, calls: seq<Call>)

  /**
   * After `txId` is submitted: wait for its confirmation within the round
   * budget, read its record once more, and answer with its asset index. A
   * thrown error becomes the catch block's 400. `polls0` and `round0` describe
   * the node before.
   */
  function AfterSubmit(node: AlgodClient, polls0: nat, round0: int, txId: TxId): Exchange
  {
    var t := Confirm(node.pendingReplies, polls0, txId, ConfirmationRounds, round0);
    match OutcomeOf(t.ending)
    case Thrown(m) => Exchange(Rejected(400, ErrorMessage(m)), [Status] + t.calls)
    case Returned(_) =>
      var ptx := PendingReplyAt(node.pendingReplies, polls0 + QueryCount(t.calls));
      Exchange(AssetResponse(ptx, txId), [Status] + t.calls + [PendingInformation(txId)])
  }

  /** The answer made from the record read after confirmation, or the catch block's 400 if that read fails. */
  function AssetResponse(ptx: Reply<PendingInfo>, txId: TxId): MintResponse
  {
    match ptx
    case Failure(m) => Rejected(400, ErrorMessage(m))
    case Answer(p) => Minted(p.assetIndex, txId, ExplorerUrl(p.assetIndex))
  }

  /** How the submission steps end, and the requests they send. */
  datatype Submitted = Submitted(outcome: Reply<TxId>, calls: seq<Call>)

  /**
   * Fetch the node's parameters, build and sign the certificate with the admin
   * account `account`, and submit it: the id the node gives it, or the message
   * of the first step that fails.
   */
  function Submission(node: AlgodClient, account: Account, sdk: Sdk, body: MintBody, now: nat): Submitted
  {
    match node.paramsReply
    case Failure(m) => Submitted(Failure(m), [TransactionParams])
    case Answer(params) =>
      match SignedCertificate(sdk, account, body, params, now)
      case Failure(m) => Submitted(Failure(m), [TransactionParams])
      case Answer(signed) => Submitted(node.sendReply, [TransactionParams, SendRaw(signed)])
  }

  /** Everything after the guards: submission, then `AfterSubmit`; a failed submission step is caught as a 400. */
  function IssueExchange(node: AlgodClient, polls0: nat, round0: int, account: Account, sdk: Sdk,
                         body: MintBody, now: nat): Exchange
  {
    var s := Submission(node, account, sdk, body, now);
    match s.outcome
    case Failure(m) => Exchange(Rejected(400, ErrorMessage(m)), s.calls)
    case Answer(txId) =>
      var rest := AfterSubmit(node, polls0, round0, txId);
      Exchange(rest.response, s.calls + rest.calls)
  }

  /** The bearer header is present and the token it carries verifies. */
  predicate Authorized(authorization: Option<string>, verify: string -> Option<string>)
  {
    Truthy(authorization) && verify(StripBearer(authorization.value)).None?
  }

  /**
   * The whole handler: the guards, then `IssueExchange`. `verify` is
   * `jwt.verify` (the message it throws, if any), `admin` the account decoded
   * at start-up, `now` the value of `Date.now()`.
   */
  function Handle(node: AlgodClient, polls0: nat, round0: int, admin: Option<Account>, sdk: Sdk,
                  verify: string -> Option<string>, authorization: Option<string>, body: MintBody,
                  now: nat): Exchange
  {
    if !Truthy(authorization) then Exchange(Rejected(401, NoAuthMessage), [])
    else
      match verify(StripBearer(authorization.value))
      case Some(m) => Exchange(Rejected(400, ErrorMessage(m)), [])
      case None =>
        if admin.None? then Exchange(Rejected(500, NotConfiguredMessage), [])
        else IssueExchange(node, polls0, round0, admin.value, sdk, body, now)
  }

  /**
   * Every step after the guards succeeds: the parameters are fetched, the
   * certificate is built and signed, the node accepts it, it is confirmed
   * within the round budget, and its record is read once more.
   */
  predicate MintSucceeds(node: AlgodClient, polls0: nat, round0: int, account: Account, sdk: Sdk,
                         body: MintBody, now: nat)
  {
    && node.paramsReply.Answer?
    && SignedCertificate(sdk, account, body, node.paramsReply.value, now).Answer?
    && node.sendReply.Answer?
    && var t := Confirm(node.pendingReplies, polls0, node.sendReply.value, ConfirmationRounds, round0);
    && t.ending.Confirmed?
    && PendingReplyAt(node.pendingReplies, polls0 + QueryCount(t.calls)).Answer?
  }

  /** The guards answer before any request reaches the node. */
  lemma HandleGuards(node: AlgodClient, polls0: nat, round0: int, admin: Option<Account>, sdk: Sdk,
                     verify: string -> Option<string>, authorization: Option<string>, body: MintBody, now: nat)
    ensures var x := Handle(node, polls0, round0, admin, sdk, verify, authorization, body, now);
      && (!Truthy(authorization) ==> x == Exchange(Rejected(401, NoAuthMessage), []))
      && (Truthy(authorization) && verify(StripBearer(authorization.value)).Some? ==>
            x == Exchange(Rejected(400, ErrorMessage(verify(StripBearer(authorization.value)).value)), []))
      && (Authorized(authorization, verify) && admin.None? ==>
            x == Exchange(Rejected(500, NotConfiguredMessage), []))
      && (x.calls != [] ==> Authorized(authorization, verify) && admin.Some?)
  {
  }

  /**
   * After submission, the answer is `Minted` exactly when the transaction is
   * confirmed within the round budget and its record is read once more. It
   * then carries the submitted id, the asset index of that record and its
   * explorer link.
   */
  lemma AfterSubmitMinted(node: AlgodClient, polls0: nat, round0: int, txId: TxId)
    ensures var t := Confirm(node.pendingReplies, polls0, txId, ConfirmationRounds, round0);
      var ptx := PendingReplyAt(node.pendingReplies, polls0 + QueryCount(t.calls));
      var x := AfterSubmit(node, polls0, round0, txId);
      && (x.response.Minted? <==> t.ending.Confirmed? && ptx.Answer?)
      && (t.ending.Confirmed? && ptx.Answer? ==>
            x.response == Minted(ptx.value.assetIndex, txId, ExplorerUrl(ptx.value.assetIndex)))
  {
    AfterSubmitByOutcome(node, polls0, round0, txId);
  }

  /** Past the guards, the answer is `Minted` exactly when every later step succeeds. */
  lemma IssueMinted(node: AlgodClient, polls0: nat, round0: int, account: Account, sdk: Sdk, body: MintBody, now: nat)
    ensures IssueExchange(node, polls0, round0, account, sdk, body, now).response.Minted? <==>
      MintSucceeds(node, polls0, round0, account, sdk, body, now)
  {
    SubmissionSteps(node, account, sdk, body, now);
    var s := Submission(node, account, sdk, body, now);
    if s.outcome.Answer? {
      assert s.outcome.value == node.sendReply.value;
      AfterSubmitMinted(node, polls0, round0, s.outcome.value);
    }
  }

  /**
   * A successful mint past the guards carries the id the node gave the
   * submission, the asset index of the record read after confirmation and its
   * explorer link. Its requests are: parameters, the one submission of the
   * signed certificate, the status read, the polling run and the final read.
   */
  lemma IssueMintedExchange(node: AlgodClient, polls0: nat, round0: int, account: Account, sdk: Sdk, body: MintBody, now: nat)
    requires MintSucceeds(node, polls0, round0, account, sdk, body, now)
    ensures var x := IssueExchange(node, polls0, round0, account, sdk, body, now);
      var signed := SignedCertificate(sdk, account, body, node.paramsReply.value, now).value;
      var txId := node.sendReply.value;
      var t := Confirm(node.pendingReplies, polls0, txId, ConfirmationRounds, round0);
      var ptx := PendingReplyAt(node.pendingReplies, polls0 + QueryCount(t.calls)).value;
      && x.response == Minted(ptx.assetIndex, txId, ExplorerUrl(ptx.assetIndex))
      && x.calls == [TransactionParams, SendRaw(signed), Status] + t.calls + [PendingInformation(txId)]
  {
    SubmissionSteps(node, account, sdk, body, now);
    var signed := SignedCertificate(sdk, account, body, node.paramsReply.value, now).value;
    var txId := node.sendReply.value;
    var t := Confirm(node.pendingReplies, polls0, txId, ConfirmationRounds, round0);
    var s := Submission(node, account, sdk, body, now);
    assert s == Submitted(Answer(txId), [TransactionParams, SendRaw(signed)]);
    AfterSubmitMinted(node, polls0, round0, txId);
    AfterSubmitByOutcome(node, polls0, round0, txId);
    assert [TransactionParams, SendRaw(signed)] + [Status] == [TransactionParams, SendRaw(signed), Status];
    LogAppend(s.calls, [Status], t.calls);
    LogAppend(s.calls, [Status] + t.calls, [PendingInformation(txId)]);
  }

  /** The handler answers `Minted` exactly when both guards pass and every later step succeeds, as `IssueMinted` says. */
  lemma HandleMinted(node: AlgodClient, polls0: nat, round0: int, admin: Option<Account>, sdk: Sdk,
                     verify: string -> Option<string>, authorization: Option<string>, body: MintBody, now: nat)
    ensures var x := Handle(node, polls0, round0, admin, sdk, verify, authorization, body, now);
      x.response.Minted? <==>
        Authorized(authorization, verify) && admin.Some? && MintSucceeds(node, polls0, round0, admin.value, sdk, body, now)
    ensures Authorized(authorization, verify) && admin.Some? && MintSucceeds(node, polls0, round0, admin.value, sdk, body, now) ==>
      var x := Handle(node, polls0, round0, admin, sdk, verify, authorization, body, now);
      var signed := SignedCertificate(sdk, admin.value, body, node.paramsReply.value, now).value;
      var txId := node.sendReply.value;
      var t := Confirm(node.pendingReplies, polls0, txId, ConfirmationRounds, round0);
      var ptx := PendingReplyAt(node.pendingReplies, polls0 + QueryCount(t.calls)).value;
      && x.response == Minted(ptx.assetIndex, txId, ExplorerUrl(ptx.assetIndex))
      && x.calls == [TransactionParams, SendRaw(signed), Status] + t.calls + [PendingInformation(txId)]
  {
    if Authorized(authorization, verify) && admin.Some? {
      IssueMinted(node, polls0, round0, admin.value, sdk, body, now);
      if MintSucceeds(node, polls0, round0, admin.value, sdk, body, now) {
        IssueMintedExchange(node, polls0, round0, admin.value, sdk, body, now);
      }
    }
  }

  /**
   * The submission steps: a failure to fetch the parameters, build or sign
   * ends them after the parameter request with that step's message; otherwise
   * the signed certificate is submitted once and the node's reply is the outcome.
   */
  lemma SubmissionSteps(node: AlgodClient, account: Account, sdk: Sdk, body: MintBody, now: nat)
    ensures var s := Submission(node, account, sdk, body, now);
      && (node.paramsReply.Failure? ==> s == Submitted(Failure(node.paramsReply.message), [TransactionParams]))
      && (node.paramsReply.Answer? ==>
            var signed := SignedCertificate(sdk, account, body, node.paramsReply.value, now);
            && (signed.Failure? ==> s == Submitted(Failure(signed.message), [TransactionParams]))
            && (signed.Answer? ==> s == Submitted(node.sendReply, [TransactionParams, SendRaw(signed.value)])))
    ensures SendCount(Submission(node, account, sdk, body, now).calls)
         == (if node.paramsReply.Answer? && SignedCertificate(sdk, account, body, node.paramsReply.value, now).Answer?
             then 1 else 0)
    ensures QueryCount(Submission(node, account, sdk, body, now).calls) == 0
    ensures WaitCount(Submission(node, account, sdk, body, now).calls) == 0
  {
    SingleCallCounts(TransactionParams);
    if node.paramsReply.Answer? {
      var signed := SignedCertificate(sdk, account, body, node.paramsReply.value, now);
      if signed.Answer? {
        SingleCallCounts(SendRaw(signed.value));
        CallCountsConcat([TransactionParams], [SendRaw(signed.value)]);
        assert [TransactionParams] + [SendRaw(signed.value)] == [TransactionParams, SendRaw(signed.value)];
      }
    }
  }

  /**
   * Once `txId` is submitted: a timeout answers 400 with the timeout message
   * after `ConfirmationRounds` polls and waits; a failed poll answers 400 with
   * its message; a failed final read answers 400 with its message after the
   * whole run and the read.
   */
  lemma AfterSubmitFailures(node: AlgodClient, polls0: nat, round0: int, txId: TxId)
    ensures var t := Confirm(node.pendingReplies, polls0, txId, ConfirmationRounds, round0);
      var x := AfterSubmit(node, polls0, round0, txId);
      && (t.ending.Exhausted? ==>
            x == Exchange(Rejected(400, TimeoutMessage), [Status] + Rounds(txId, round0, ConfirmationRounds)))
      && (t.ending.Failed? ==> x == Exchange(Rejected(400, ErrorMessage(t.ending.message)), [Status] + t.calls))
      && (t.ending.Confirmed? && PendingReplyAt(node.pendingReplies, polls0 + QueryCount(t.calls)).Failure? ==>
            x == Exchange(Rejected(400, ErrorMessage(PendingReplyAt(node.pendingReplies, polls0 + QueryCount(t.calls)).message)),
                          [Status] + t.calls + [PendingInformation(txId)]))
  {
    var t := Confirm(node.pendingReplies, polls0, txId, ConfirmationRounds, round0);
    if t.ending.Exhausted? {
      ConfirmExhaustedIff(node.pendingReplies, polls0, txId, ConfirmationRounds, round0);
      ConfirmExhaustedRun(node.pendingReplies, polls0, txId, ConfirmationRounds, round0, ConfirmationRounds);
    }
  }

  /** Every answer: a rejection is a 400, 401 or 500 with a message, and so is every 400 past the guards. */
  lemma HandleRejections(node: AlgodClient, polls0: nat, round0: int, admin: Option<Account>, sdk: Sdk,
                         verify: string -> Option<string>, authorization: Option<string>, body: MintBody, now: nat)
    ensures var x := Handle(node, polls0, round0, admin, sdk, verify, authorization, body, now);
      x.response.Rejected? ==> x.response.status in {400, 401, 500} && x.response.message != ""
  {
  }

  /** The requests sent after submission: no submission, at most `ConfirmationRounds + 1` queries and at most `ConfirmationRounds` waits. */
  lemma AfterSubmitBudget(node: AlgodClient, polls0: nat, round0: int, txId: TxId)
    ensures var calls := AfterSubmit(node, polls0, round0, txId).calls;
      && SendCount(calls) == 0
      && QueryCount(calls) <= ConfirmationRounds + 1
      && WaitCount(calls) <= ConfirmationRounds
  {
    var t := Confirm(node.pendingReplies, polls0, txId, ConfirmationRounds, round0);
    PollBudget(node.pendingReplies, polls0, txId, ConfirmationRounds, 0, round0);
    SingleCallCounts(Status);
    SingleCallCounts(PendingInformation(txId));
    CallCountsConcat([Status], t.calls);
    CallCountsConcat([Status] + t.calls, [PendingInformation(txId)]);
  }

  /**
   * The handler submits at most once, and exactly once when both guards pass
   * and the certificate is built and signed; it polls at most
   * `ConfirmationRounds + 1` times and waits for at most `ConfirmationRounds` rounds.
   */
  lemma HandleBudget(node: AlgodClient, polls0: nat, round0: int, admin: Option<Account>, sdk: Sdk,
                     verify: string -> Option<string>, authorization: Option<string>, body: MintBody, now: nat)
    ensures var calls := Handle(node, polls0, round0, admin, sdk, verify, authorization, body, now).calls;
      && (SendCount(calls) == 1 <==>
            && Authorized(authorization, verify) && admin.Some? && node.paramsReply.Answer?
            && SignedCertificate(sdk, admin.value, body, node.paramsReply.value, now).Answer?)
      && SendCount(calls) <= 1
      && QueryCount(calls) <= ConfirmationRounds + 1
      && WaitCount(calls) <= ConfirmationRounds
  {
    if Authorized(authorization, verify) && admin.Some? {
      var s := Submission(node, admin.value, sdk, body, now);
      SubmissionSteps(node, admin.value, sdk, body, now);
      if s.outcome.Answer? {
        AfterSubmitBudget(node, polls0, round0, s.outcome.value);
        CallCountsConcat(s.calls, AfterSubmit(node, polls0, round0, s.outcome.value).calls);
      }
    }
  }

  /** `AfterSubmit` by the outcome of the wait: its answer, its requests and how many queries and waits they hold. */
  lemma AfterSubmitByOutcome(node: AlgodClient, polls0: nat, round0: int, txId: TxId)
    ensures var t := Confirm(node.pendingReplies, polls0, txId, ConfirmationRounds, round0);
      var x := AfterSubmit(node, polls0, round0, txId);
      && (OutcomeOf(t.ending).Thrown? ==>
            && x.response == Rejected(400, ErrorMessage(OutcomeOf(t.ending).message))
            && x.calls == [Status] + t.calls
            && QueryCount(x.calls) == QueryCount(t.calls) && WaitCount(x.calls) == WaitCount(t.calls))
      && (OutcomeOf(t.ending).Returned? ==>
            && x.response == AssetResponse(PendingReplyAt(node.pendingReplies, polls0 + QueryCount(t.calls)), txId)
            && x.calls == [Status] + t.calls + [PendingInformation(txId)]
            && QueryCount(x.calls) == QueryCount(t.calls) + 1 && WaitCount(x.calls) == WaitCount(t.calls))
  {
    var t := Confirm(node.pendingReplies, polls0, txId, ConfirmationRounds, round0);
    SingleCallCounts(Status);
    SingleCallCounts(PendingInformation(txId));
    CallCountsConcat([Status], t.calls);
    CallCountsConcat([Status] + t.calls, [PendingInformation(txId)]);
  }

  /** The second read of the record of a confirmed `txId`, and the answer made from it. */
  method ReadAsset(node: AlgodClient, txId: TxId) returns (resp: MintResponse)
    modifies node
    ensures resp == AssetResponse(PendingReplyAt(node.pendingReplies, old(node.polls)), txId)
    ensures node.log == old(node.log) + [PendingInformation(txId)]
    ensures node.polls == old(node.polls) + 1 && node.round == old(node.round)
  {
    var ptx := node.PendingTransactionInformation(txId);
    if ptx.Failure? {
      return Rejected(400, ErrorMessage(ptx.message));
    }
    var assetId := ptx.value.assetIndex;
    var explorerUrl := ExplorerUrl(assetId);
    return Minted(assetId, txId, explorerUrl);
  }

  /** Appending to a log does not depend on how the appended requests are grouped. */
  lemma LogAppend(log: seq<Call>, a: seq<Call>, b: seq<Call>)
    ensures log + a + b == log + (a + b)
  {
  }

  /**
   * After submission of `txId`: the confirmation wait, the second read of its
   * record, and the response, as `AfterSubmit` says.
   */
  method AwaitAsset(node: AlgodClient, txId: TxId) returns (resp: MintResponse)
    modifies node
    ensures var x := AfterSubmit(node, old(node.polls), old(node.round), txId);
      && resp == x.response
      && node.log == old(node.log) + x.calls
      && node.polls == old(node.polls) + QueryCount(x.calls)
      && node.round == old(node.round) + WaitCount(x.calls)
  {
    ghost var log0 := node.log;
    AfterSubmitByOutcome(node, node.polls, node.round, txId);
    ghost var t := Confirm(node.pendingReplies, node.polls, txId, ConfirmationRounds, node.round);
    LogAppend(log0, [Status], t.calls);
    var confirmed := WaitForConfirmation(node, txId, ConfirmationRounds);
    if confirmed.Thrown? {
      return Rejected(400, ErrorMessage(confirmed.message));
    }
    resp := ReadAsset(node, txId);
    LogAppend(log0, [Status] + t.calls, [PendingInformation(txId)]);
  }

  /** The submission steps, as `Submission` says; the node's poll counter and round are untouched. */
  method Submit(node: AlgodClient, account: Account, sdk: Sdk, body: MintBody, now: nat) returns (sent: Reply<TxId>)
    modifies node
    ensures var s := Submission(node, account, sdk, body, now);
      && sent == s.outcome
      && node.log == old(node.log) + s.calls
      && node.polls == old(node.polls) && node.round == old(node.round)
  {
    var params := node.GetTransactionParams();
    if params.Failure? {
      return Failure(params.message);
    }
    var txn := BuildAssetCreate(account.addr, body, params.value, now);
    var unsigned := sdk.makeAssetCreateTxn(txn);
    if unsigned.Failure? {
      return Failure(unsigned.message);
    }
    var signed := sdk.signTxn(unsigned.value, account.sk);
    if signed.Failure? {
      return Failure(signed.message);
    }
    sent := node.SendRawTransaction(signed.value);
  }

  /** Everything the handler does once the guards have passed, as `IssueExchange` says. */
  method Issue(node: AlgodClient, account: Account, sdk: Sdk, body: MintBody, now: nat) returns (resp: MintResponse)
    modifies node
    ensures var x := IssueExchange(node, old(node.polls), old(node.round), account, sdk, body, now);
      && resp == x.response
      && node.log == old(node.log) + x.calls
      && node.polls == old(node.polls) + QueryCount(x.calls)
      && node.round == old(node.round) + WaitCount(x.calls)
  {
    ghost var log0 := node.log;
    ghost var s := Submission(node, account, sdk, body, now);
    SubmissionSteps(node, account, sdk, body, now);
    var sent := Submit(node, account, sdk, body, now);
    if sent.Failure? {
      return Rejected(400, ErrorMessage(sent.message));
    }
    ghost var rest := AfterSubmit(node, node.polls, node.round, sent.value);
    LogAppend(log0, s.calls, rest.calls);
    CallCountsConcat(s.calls, rest.calls);
    resp := AwaitAsset(node, sent.value);
  }

  /** The handler, as `Handle` says. */
  method MintNft(node: AlgodClient, admin: Option<Account>, sdk: Sdk, verify: string -> Option<string>,
                 authorization: Option<string>, body: MintBody, now: nat) returns (resp: MintResponse)
    modifies node
    ensures var x := Handle(node, old(node.polls), old(node.round), admin, sdk, verify, authorization, body, now);
      && resp == x.response
      && node.log == old(node.log) + x.calls
      && node.polls == old(node.polls) + QueryCount(x.calls)
      && node.round == old(node.round) + WaitCount(x.calls)
  {
    if !Truthy(authorization) {
      return Rejected(401, NoAuthMessage);
    }
    var token := StripBearer(authorization.value);
    var verdict := verify(token);
    if verdict.Some? {
      return Rejected(400, ErrorMessage(verdict.value));
    }
    if admin.None? {
      return Rejected(500, NotConfiguredMessage);
    }
    resp := Issue(node, admin.value, sdk, body, now);
  }
}
