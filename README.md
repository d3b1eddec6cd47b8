# Goldchain backend: confirmation poller, NFT minting and user store

A Dafny model of the parts of the Goldchain demo backend (`server.js`) that
carry logic:

- **`waitForConfirmation`**: reads the node's last round once, then polls the
  pending status of one transaction up to `timeout` times. It returns the first
  record whose `confirmed-round` is present and positive. After every other
  answer it waits for round `lastRound + 1`, then increments `lastRound`.
  When the budget runs out it throws "Transaction not confirmed after timeout".
- **`POST /mint-nft`**: the handler, in this order:
  - the bearer-header guard (401);
  - token verification (a thrown error becomes a 400);
  - the admin-account guard (500);
  - defaulting of the body fields, the fixed fields of a one-of-one asset, and
    the placeholder metadata URL;
  - fetching parameters, signing, and submitting;
  - waiting for confirmation and reading the record a second time;
  - the `{ assetId, txId, explorerUrl }` response, or the catch block's 400
    with `err.message || 'mint failed'`.
- **`/auth/signup` and `/auth/login`**: the in-memory `users` object keyed by
  email.

Files and modules:

- `js.dfy` (`Js`): the JavaScript value semantics the handlers rely on:
  - `undefined` properties as `Option`;
  - string truthiness;
  - the decimal text that `'' + n` gives a non-negative integer, with its
    parser and the round-trip lemma.
- `algod.dfy` (`Algod`): the ledger node as an oracle object `AlgodClient`.
  - It logs every request it receives.
  - It answers `status`, `statusAfterBlock`, `getTransactionParams` and
    `sendRawTransaction`.
  - It answers the `k`-th `pendingTransactionInformation` query with the
    `k`-th scripted record (or error). Past the script, the transaction is
    still pending.
- `confirmation.dfy` (`Confirmation`):
  - `Confirm` is a function stating a whole polling run: how it ends and every
    request it sends.
  - Lemmas state what that run means (first confirmed record, timeout exactly
    when nothing confirms, query budget, the round waited for at each step).
  - `WaitForConfirmation` is the loop itself, proved to do exactly what
    `Confirm` says to the node's log, poll counter and round.
- `mint.dfy` (`Mint`):
  - the pure transaction builder `BuildAssetCreate`, the URL helpers and the
    `auth.replace('Bearer ', '')` step;
  - `Handle`, a function stating the whole handler: its answer and every
    request it sends the node. It is built from `Submission` (parameters,
    build, sign, submit), `AfterSubmit` (confirmation and the final read) and
    `IssueExchange` (the two joined, with the catch block);
  - lemmas about `Handle`: the guards, when it answers `Minted` and with what,
    each rejection path, and the submission and polling budget;
  - the handler itself, split at its natural seams: `MintNft` checks the
    guards, `Issue` builds, signs and submits, and `AwaitAsset` handles
    confirmation and the response. Each is proved to do exactly what its
    function says to the node's log, poll counter and round.
- `users.dfy` (`Users`):
  - `Lookup`, a property lookup on a plain object, which sees the names every
    object inherits from `Object.prototype`;
  - the login check as written, and the check as evidently intended;
  - the `UserStore` class whose `Signup` updates the map in place.

Foreign steps are parameters:

- `jwt.verify` is `verify`, the message it throws or nothing;
- `jwt.sign` is `sign`;
- `makeAssetCreateTxnWithSuggestedParamsFromObject` and `signTxn` are the
  fields of `Sdk`;
- `Date.now()` is `now`;
- the admin account decoded at start-up is `admin: Option<Account>`.

The node's answers are fixed in advance in `AlgodClient`.

## Model

| member | source | states |
|---|---|---|
| `Js.NumberToString` | server.js:128 | The text `'' + n` gives a non-negative integer is non-empty, all digits, has no leading zero, and is one character long exactly when `n < 10`. |
| `Js.ParseNumberToString` | server.js:128 | Reading the decimal text of `n` back gives `n`. |
| `Js.DecimalTextIsRendering` | server.js:128 | Any non-empty text of digits with no leading zero is exactly the text `'' + n` gives for the number it reads back as. So the URL contracts that state this shape and the read-back fix the text in full. |
| `Js.NumberToStringInjective` | server.js:128 | Different numbers render to different texts. |
| `Confirmation.Poll` | server.js:96-104 | From iteration `i`, the loop sends nothing exactly when no iteration is left, and at most two requests per remaining iteration. Its first request is a query for the transaction. It times out exactly when it sends an even number of requests; a settled run ends on the query that settled it. How many of the requests are queries and how many are waits is stated by `PollBudget`. |
| `Confirmation.Confirm` | server.js:94-104 | A whole run sends no request after the status read exactly when `timeout <= 0`. Otherwise it sends at most `2 * timeout` requests. |
| `Confirmation.Rounds` | server.js:96-103 | `n` unconfirmed iterations send `2n` requests. |
| `Confirmation.RoundsAt` | server.js:101-102 | In `n` unconfirmed iterations, request `2k` queries the transaction and request `2k+1` waits for round `lastRound + k + 1`. |
| `Confirmation.RoundsCounts` | server.js:96-103 | `n` unconfirmed iterations make `n` queries and `n` round waits, and submit nothing. |
| `Confirmation.PollSettles` | server.js:96-100 | If polls `i..j-1` are pending and poll `j` (within the budget) confirms or errors, the loop ends with that reply. Its requests are the `j-i` iterations plus one final query. |
| `Confirmation.PollExhausts` | server.js:96-104 | If every remaining poll is pending, the loop ends by exhausting the budget. It sends exactly one query and one wait per remaining iteration. |
| `Confirmation.PollBudget` | server.js:96-103 | A run makes at most `timeout` queries (none when `timeout <= 0`) and submits nothing. It waits once per failed poll: as many waits as queries on a timeout, one fewer when a poll settles it. |
| `Confirmation.ConfirmExhaustedIff` | server.js:96-104 | A run times out exactly when none of the first `timeout` polls confirms or errors. |
| `Confirmation.ConfirmReturnsFirstConfirmed` | server.js:97-100 | A run returns a record exactly when, within the budget, some poll reports a positive confirmed round with only pending polls before it. The record returned is the answer to the first such poll. |
| `Confirmation.ConfirmWithoutBudget` | server.js:96-104 | With `timeout <= 0`, the run throws the timeout message without sending a single query. |
| `Confirmation.ConfirmSettledRun` | server.js:94-100 | A run settled by poll `j` ends with that reply. It sends `j` query-and-wait pairs plus one query: `j + 1` queries and `j` waits. |
| `Confirmation.ConfirmExhaustedRun` | server.js:94-104 | A run in which nothing settles sends `timeout` query-and-wait pairs, then throws. |
| `Confirmation.ConfirmCallsAt` | server.js:95-102 | In every run, the `k`-th query is for `txId`, and the `k`-th wait is for round `startRound + k + 1`. |
| `Confirmation.WaitForConfirmation` | server.js:93-105 | The loop resolves or throws as `Confirm` says, and the node's log is `status` followed by the run's requests. Its poll counter grows by the number of queries and its round by the number of waits. |
| `Mint.ErrorMessage` | server.js:160-163 | The message of a caught error is never empty. A non-empty `err.message` is kept, and an empty one becomes "mint failed". |
| `Mint.AssetUrl` | server.js:128 | The asset URL is the supplied metadata URL when it is non-empty. Otherwise it is `https://example.com/metadata/` followed by the decimal text of `now` (only digits, no leading zero), which reads back as `now`. |
| `Mint.PlaceholderUrlsDistinct` | server.js:128 | Without a metadata URL, different timestamps give different asset URLs. |
| `Mint.BuildAssetCreate` | server.js:120-148 | The request always has `total = 1`, `decimals = 0`, unit name `GOLDNFT` and is not frozen. Its creator, manager, reserve, freeze and clawback are the admin address. Its name is the body's name (even an empty one), or "Gold Certificate" when the name is absent. Its URL follows the metadata fallback. The node's parameters pass through unchanged. |
| `Mint.DescriptionUnused` | server.js:120 | The body's `desc` never affects the transaction. |
| `Mint.ExplorerUrl` | server.js:156-157 | The explorer link starts with `https://testnet.algoexplorer.io/asset/`. The rest is the decimal text of the asset index (only digits, no leading zero) and reads back as that index, or is `undefined` when the record has none. |
| `Mint.ExplorerUrlsDistinct` | server.js:156-157 | Different asset indexes, or an index and its absence, give different explorer links. |
| `Mint.StripBearer` | server.js:115 | Stripping the header either leaves it unchanged or removes exactly the length of `Bearer `. |
| `Mint.StripBearerRemovesFirst` | server.js:115 | Stripping the header removes exactly the first occurrence of `Bearer `, wherever it occurs. |
| `Mint.StripBearerWithoutPrefix` | server.js:115 | A header without `Bearer ` passes through unchanged. |
| `Mint.HandleGuards` | server.js:113-118 | No header gives 401 "no auth". A token that fails verification gives 400 with its message. A verified token without an admin account gives 500. In each case no request reaches the node, and any request at all means both guards passed. |
| `Mint.SubmissionSteps` | server.js:121-151 | A failure to fetch the parameters ends the submission steps after that one request, with its message. So does a failure to build or sign. Otherwise the signed certificate is submitted once, and the node's reply is the outcome. These steps never poll or wait. |
| `Mint.AfterSubmitByOutcome` | server.js:153-163 | After submission, a thrown wait answers 400 with its message, and the requests are the status read and the polling run. A returned wait is followed by exactly one more read, and the answer is made from that read's reply. |
| `Mint.AfterSubmitFailures` | server.js:153-163 | A timeout answers 400 with the timeout message after exactly 10 query-and-wait pairs. A failed poll answers 400 with its message. A failed final read answers 400 with its message, after the whole run and the read. |
| `Mint.AfterSubmitMinted` | server.js:153-159 | After submission, the answer is `Minted` exactly when the run confirms and the final read answers. It then carries the submitted id, the record's asset index and its explorer link. |
| `Mint.AfterSubmitBudget` | server.js:153-155 | After submission, nothing more is submitted, at most 11 queries are sent, and at most 10 rounds are waited for. |
| `Mint.IssueMinted` | server.js:120-163 | Past the guards, the answer is `Minted` exactly when the parameters are fetched, the certificate is built and signed, the node accepts it, it is confirmed within 10 rounds, and the final read answers. |
| `Mint.IssueMintedExchange` | server.js:120-159 | A successful mint answers with the id the node gave, the asset index of the final read and its explorer link. Its requests are exactly: parameters, the one submission of the signed certificate, the status read, the polling run and the final read. |
| `Mint.HandleMinted` | server.js:112-159 | The handler answers `Minted` exactly when both guards pass and every later step succeeds. The answer and the requests are then as `IssueMintedExchange` states. |
| `Mint.HandleRejections` | server.js:114-163 | Every rejection has status 400, 401 or 500 and a non-empty message. |
| `Mint.HandleBudget` | server.js:112-163 | The handler submits at most once. It submits exactly once when both guards pass and the certificate is built and signed. It sends at most 11 queries and waits for at most 10 rounds. |
| `Mint.ReadAsset` | server.js:155-159 | The second read queries the transaction once, and its answer is made from the node's next scripted record. A failed read gives 400 with its message. An answered read gives `Minted` with the record's asset index and link. The round is unchanged. |
| `Mint.AwaitAsset` | server.js:153-163 | The wait, the second read and the answer do exactly what `AfterSubmit` says: the response, the whole request log, the poll counter and the round. |
| `Mint.Submit` | server.js:121-152 | The parameter fetch, build, signing and submission do exactly what `Submission` says to the response and the log. Poll counter and round are untouched. |
| `Mint.Issue` | server.js:120-163 | Everything past the guards does exactly what `IssueExchange` says: the response, the whole request log, the poll counter and the round. |
| `Mint.MintNft` | server.js:112-164 | The handler does exactly what `Handle` says to the response, the whole request log, the poll counter and the round. |
| `Users.LoginAsWritten` | server.js:63-69 | The login as written issues a token exactly when the stored password equals the one given, or when the email names an inherited property and no password is given. It otherwise answers 401 "invalid credentials". |
| `Users.InheritedKeyLogsIn` | server.js:65-66 | Against an empty store, email "toString" with no password receives a token. |
| `Users.Login` | server.js:63-69 | The intended login issues a token exactly when a user is stored under the email and the given password is theirs. It otherwise answers 401. |
| `Users.LoginAsWrittenDiffers` | server.js:65-66 | The two logins differ exactly for an inherited property name given without a password. |
| `Users.LoginAfterSignup` | server.js:59-66 | After signup with a password, login succeeds with that password and with no other. |
| `Users.LoginWithoutPassword` | server.js:55-69 | In a directory kept by signup, the intended login issues a token only with a non-empty password. The login as written issues a token with no password exactly for an inherited property name. |
| `Users.SignupKeepsOthers` | server.js:55-61 | A successful signup keeps the directory's invariant. Every other email's login, as written or as intended, answers as before. |
| `Users.UserStore.constructor` | server.js:36 | The store starts empty. |
| `Users.UserStore.Signup` | server.js:55-61 | A missing or empty email or password gives 400 and leaves the store unchanged. An email already present (own or inherited) gives "user exists" and leaves the store unchanged. Otherwise exactly one record `{email, password, gold: 0}` is added. The store invariant is preserved. |

## Left out

- Express routing, CORS, JSON body parsing, `app.listen` and logging: HTTP plumbing and I/O.
- `jwt.sign` and `jwt.verify` are parameters of the model. The secret and the 12-hour expiry are not modelled.
- algosdk:
  - client construction, transaction encoding and signing are foreign calls; they are the `Sdk` parameter and the `AlgodClient` oracle.
  - `mnemonicToSecretKey` at start-up is reduced to an admin account that is present or absent.
- `randomPrice`, `/gold-price` and `/balance/:address` use floating point and `Math.random`.
- `/vault`, `/profile` and `/` are static data or a trivial lookup behind a token.
- `Date.now()` is the parameter `now`. Timestamps above 2^53, and JavaScript's exponent notation for very large numbers, are not modelled.
- Asynchrony: every `await` is a sequential call in the model. Concurrent requests interleaving on the shared node and store are not modelled.
- Failure modes of the node:
  - `status()` and `statusAfterBlock()` always answer in the model. The real calls can reject; the handler would turn that into a 400.
  - The node's round moves only through the awaited rounds. The poller only uses its own `lastRound` counter, so the requests it sends are unaffected.
- JSON types:
  - A pending record is always an object with an optional integer `confirmed-round`; a `null` record or a non-numeric round is not modelled.
  - Body fields are strings or absent, and `sendTx.txId` is a string. `null`, numbers and objects in those places are not modelled. A `null` would not trigger a destructuring default.
- A missing `asset-index` is not checked by the handler. The model follows that: the explorer link then ends in `undefined`.
- The poller in `server.js` has no branch for a transaction rejected from the pool. Such a record counts as still pending, as in the code.
- The handler answers a token that fails verification with 400, through its catch block, not with 401. The model follows the code.
- `desc` is destructured with a default but never used (`Mint.DescriptionUnused`).

## Findings

| source | as written | input that shows it | evidently intended | confidence | as-written member | corrected member |
|---|---|---|---|---|---|---|
| server.js:65-66 | `users` is a plain object, so `users[email]` also finds `Object.prototype` properties. For such a property `u.password` is `undefined`, which equals an absent password. | `POST /auth/login` with body `{"email":"toString"}` against an empty store returns a token | a token only for a stored user whose password matches | not executed | `Users.LoginAsWritten`, `Users.InheritedKeyLogsIn` | `Users.Login` |
