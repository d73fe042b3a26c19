# Solayer NFT template: a Dafny model of the deployment pipeline and its ledger

The repository is a small template for minting an NFT on a Solana-compatible
devnet. It has four parts:

- a deployer script that validates a metadata file and publishes a metadata
  URI (a pinned IPFS URL, or a base64 `data:` URI);
- the same script then builds, signs and sends a four-instruction mint
  transaction, polls for its confirmation, and appends each step to a JSON
  deployment index;
- a read-only Express API and a viewer script that query that index;
- a verifier script that decodes the on-chain mint account.

This project models the deterministic core of those scripts. Every network
answer is an input: the image HEAD check, the balance, the block hash, rent,
the transaction submission and the confirmation polls.

Modules, one per component:

- `Wrappers`: `Option` and `Result`.
- `JsonValue`: parsed JSON values, JavaScript truthiness, and `String(v)`
  as template literals render it.
- `Strings`: `startsWith`, `join`, and `split(c).pop()`.
- `Seqs`: `Array.prototype.filter`, and the last element that `pop()` returns.
- `Bytes`: little-endian integers.
- `Base64`: standard base64 with padding, as in section 4 of RFC 4648. It has
  an encoder and a strict decoder, and the decoder is proved to invert the
  encoder.
- `Config`: the configuration object derived from the environment.
- `Ledger`: the deployment index file, as a class updated by
  read–push–write appends.
- `MintTransaction`: the four instruction records and a `Transaction` class
  built by successive `Add` calls. A small reference semantics of the System
  and SPL Token programs serves as the partner the instruction list is
  proved against.
- `Confirmation`: the specification of the confirmation poller.
- `Upload`: the two pinning calls. This covers the guards, the basename, the
  multipart `FormData` built in place, the JSON body, and the `{hash, url}`
  result.
- `Explorer`: explorer-link strings, with a parser that reads them back.
- `Deployer`:
  - metadata validation, the prerequisite check and the metadata URI;
  - the record sequence of a deployment as functions;
  - the `NFTDeployer` class, whose methods perform the steps in place and are
    proved equal to those functions.
- `Api`: the `/api/deployments`, `/latest` and `/stats` handlers, as
  functions of the index file.
- `Viewer`: the latest-successful selection and the printed links.
- `MintAccount`: the mint-account decode and the status and ownership labels
  of the verifier.

## Where the code and its description differ

- **An on-chain error does not end polling.** One could expect an `err`
  payload in a signature status to end confirmation at once with
  "Transaction failed". It does not: the `throw` at
  `scripts/deploy_nft.js:82` sits inside the loop's own `try` and is caught
  at line 85. Such an answer only uses up an attempt.
  - The model follows the code.
  - `Confirmation.NonConfirmingAnswersInterchangeable` and
    `Confirmation.ErrorPayloadsTimeOut` state the consequence.
- **The viewer and the API select different records.** The API's "latest
  successful deployment" takes the last `nft_deployed` record and ignores
  `success`. The viewer also requires `success` to be truthy. The two agree
  on every index the deployer writes (`Viewer.ViewerAgreesWithApi`).

## Model

| member | source | states |
|---|---|---|
| JsonValue.Get | solayer-nft-template/scripts/deploy_nft.js:124 | `obj[key]` is present exactly when the key is in the object, and then it is that field |
| JsonValue.Member | solayer-nft-template/scripts/deploy_nft.js:75-81 | `v?.key` is defined only for an object that holds the key |
| Strings.Split | solayer-nft-template/scripts/upload_to_ipfs.js:18 | `split` yields at least one piece; no piece holds the separator; there is a single piece exactly when the separator does not occur; joining the pieces with the separator gives back the string |
| Strings.AfterLastStep | solayer-nft-template/scripts/upload_to_ipfs.js:18 | the last piece of `split(c)` is the last piece of the tail when `c` occurs, and the whole string when it does not |
| Strings.AfterLastIsTail | solayer-nft-template/scripts/upload_to_ipfs.js:18 | `split(c).pop()` is a suffix free of `c` that is preceded by `c` unless it is the whole string |
| Strings.TailAfterLastUnique | solayer-nft-template/scripts/upload_to_ipfs.js:18 | at most one string satisfies that description of the text after the last `c` |
| Strings.ShowNat | solayer-nft-template/config/index.js:71 | the decimal rendering of a number is non-empty and made of digits |
| Seqs.Filter | solayer-nft-template/server/api.js:82-84 | `filter` keeps exactly the elements that pass, in order, as a subsequence of the input |
| Seqs.LastOfFilter | solayer-nft-template/scripts/view_nft.js:16-18 | `filter(p).pop()` is the last element that passes, and it is absent exactly when none passes |
| Seqs.FilterAppend | solayer-nft-template/server/api.js:143-144 | filtering a concatenation concatenates the filtered parts |
| Seqs.FilterCounts | solayer-nft-template/server/api.js:83 | filtering keeps every passing element as often as it occurs, and drops the rest |
| Seqs.FilterLength | solayer-nft-template/server/api.js:143-144 | the length of `filter(p)` is the number of positions whose element passes |
| Seqs.PositionsSnoc | solayer-nft-template/server/api.js:143-144 | appending an element adds its position to the passing positions exactly when it passes |
| Seqs.FilterAgree | solayer-nft-template/scripts/view_nft.js:17 | two tests that agree on every element select the same elements |
| Bytes.LittleEndian | solayer-nft-template/scripts/verify_transaction.js:96 | the integer read from `k` little-endian bytes is below 256^k |
| Bytes.LittleEndianRoundTrip | solayer-nft-template/scripts/verify_transaction.js:96 | writing a number that fits in `k` bytes little-endian and reading it back gives the number |
| Base64.Sym | solayer-nft-template/scripts/deploy_nft.js:114 | each 6-bit value maps to a character of the base64 alphabet |
| Base64.Index | solayer-nft-template/scripts/deploy_nft.js:114 | exactly the alphabet characters have a value, and that value maps back to the character |
| Base64.IndexOfSym | solayer-nft-template/scripts/deploy_nft.js:114 | the alphabet is injective: a value's character reads back as the value |
| Base64.SextetsPadLength | solayer-nft-template/scripts/deploy_nft.js:114 | the characters of the data and the '=' padding fill whole groups of four |
| Base64.Encode | solayer-nft-template/scripts/deploy_nft.js:114 | `toString('base64')` has a length that is a multiple of 4, uses alphabet characters with '=' only in the last two places, and has no '=' when the byte count is a multiple of 3 |
| Base64.ValuesOfLetters | solayer-nft-template/scripts/deploy_nft.js:114 | the characters of a sequence of sextets read back as those sextets |
| Base64.FromSextetsOfBytes | solayer-nft-template/scripts/deploy_nft.js:114 | the sextets of a byte string are regrouped into exactly those bytes |
| Base64.DecodeEncode | solayer-nft-template/scripts/deploy_nft.js:114 | decoding the base64 text of any bytes gives back those bytes |
| Base64.EncodeInjective | solayer-nft-template/scripts/deploy_nft.js:114 | two byte strings with the same base64 text are equal |
| Base64.EncodeVectors | solayer-nft-template/scripts/deploy_nft.js:114 | "Man", "Ma" and "M" encode to "TWFu", "TWE=" and "TQ==": a whole group, then one and two padding characters |
| Base64.EncodeStandardVectors | solayer-nft-template/scripts/deploy_nft.js:114 | the test vectors of section 10 of RFC 4648: "", "f", "fo" and "foo" encode to "", "Zg==", "Zm8=" and "Zm9v" |
| Config.OrDefault | solayer-nft-template/config/index.js:33 | `process.env[name] \|\| fallback`: the variable when it is set and non-empty, the fallback otherwise |
| Config.MissingVars | solayer-nft-template/config/index.js:9-14 | the missing list holds exactly the required variables that are unset or empty, in declaration order |
| Config.MissingVarsEmpty | solayer-nft-template/config/index.js:14-15 | nothing is missing exactly when both SOLANA_RPC_URL and SOLANA_KEYPAIR_PATH are set |
| Config.ExpandPath | solayer-nft-template/config/index.js:22-27 | only a path starting with "~/" is joined to HOME; every other path is returned unchanged; the call fails only for a "~/" path without HOME, with the TypeError `path.join` raises for an undefined argument |
| Config.ExpandPathOnlyTildeSlash | solayer-nft-template/config/index.js:23 | "~" alone, "~user/x" and paths with "~/" in the middle are not expanded |
| Config.Port | solayer-nft-template/config/index.js:43 | the port is never 0; a non-zero `parseInt(PORT)` is the port; it is 3000 exactly when `parseInt(PORT)` is NaN, 0 or 3000 |
| Config.ParseIntDecimalExamples | solayer-nft-template/config/index.js:43 | `parseInt` skips leading white space and stops at the first non-digit: " 8080" and "8080x" both read as 8080 |
| Config.ParseIntHexExample | solayer-nft-template/config/index.js:43 | `parseInt` reads "0x1F90" as hexadecimal 8080 |
| Config.PortFallbackExamples | solayer-nft-template/config/index.js:43 | a PORT of "abc", of "0" or unset leaves port 3000 |
| Config.ParseIntShowNat | solayer-nft-template/config/index.js:43 | `parseInt` reads a decimal rendering back as its number |
| Config.PortFromDecimal | solayer-nft-template/config/index.js:43 | a non-zero decimal PORT is used as it is |
| Config.Load | solayer-nft-template/config/index.js:14-52 | loading fails with the "Missing required environment variables" message exactly when a required variable is missing; with both set it fails exactly when the keypair path starts with "~/" and HOME is unset, with the `path.join` TypeError; otherwise every field is given: the RPC URL as it is, the expanded keypair path, NETWORK, PINATA_JWT, PINATA_GATEWAY, the port, NODE_ENV and DEFAULT_METADATA_FILE each as set or defaulted, the commitment "confirmed" and the index path |
| Config.LoadDefaults | solayer-nft-template/config/index.js:29-52 | with only the required variables set, every other field takes its default: devnet, the Pinata gateway, port 3000, development, assets/nft-metadata.json |
| Config.Validate | solayer-nft-template/config/index.js:55-63 | `validate()` returns true exactly when the keypair file exists, and otherwise fails naming the path |
| Config.Display | solayer-nft-template/config/index.js:66-73 | six lines are printed, and the JWT is shown only as "Yes" or "No" |
| Config.DisplayHidesJwt | solayer-nft-template/config/index.js:72 | the printed lines depend on the JWT only through whether it is configured |
| Ledger.Stamp | solayer-nft-template/scripts/deploy_nft.js:59-62 | the stamped entry carries the fresh timestamp |
| Ledger.StampFields | solayer-nft-template/scripts/deploy_nft.js:59-62 | stamping adds `timestamp`, overriding any earlier one, and keeps every other field |
| Ledger.StampKeepsStep | solayer-nft-template/scripts/deploy_nft.js:59-62 | stamping never changes an entry's step |
| Ledger.DeploymentIndex.constructor | solayer-nft-template/scripts/deploy_nft.js:55-57 | the index starts as the file found on disk, or as no file |
| Ledger.DeploymentIndex.Append | solayer-nft-template/scripts/deploy_nft.js:53-66 | the file becomes the old array (or [] when absent) with exactly one stamped entry at the end; earlier entries are unchanged |
| MintTransaction.MintInstructions | solayer-nft-template/scripts/deploy_nft.js:216-257 | the transaction holds exactly four instructions |
| MintTransaction.Transaction.constructor | solayer-nft-template/scripts/deploy_nft.js:216 | a new transaction is empty and unsigned |
| MintTransaction.Transaction.Add | solayer-nft-template/scripts/deploy_nft.js:219-257 | `add` appends one instruction and changes nothing else |
| MintTransaction.Transaction.Sign | solayer-nft-template/scripts/deploy_nft.js:264 | `sign` makes exactly the given keypairs the signers and changes nothing else |
| MintTransaction.MintTx | solayer-nft-template/scripts/deploy_nft.js:216-264 | the transaction is paid by the payer and has two signers, which cover every signature its instructions require |
| MintTransaction.BuildMintTransaction | solayer-nft-template/scripts/deploy_nft.js:216-264 | building step by step yields: create the mint account, initialise it with 0 decimals and the payer as both authorities, create the associated token account, mint 1; the block hash and fee payer are set and the payer and mint key sign |
| MintTransaction.MintTransactionMintsOneUnit | solayer-nft-template/scripts/deploy_nft.js:218-257 | on fresh accounts the four instructions create a mint with 0 decimals and supply 1, whose authorities are the payer, and a payer token account holding that one unit |
| MintTransaction.MintKeypairMustCosign | solayer-nft-template/scripts/deploy_nft.js:264 | the payer's signature alone does not suffice: the mint keypair must also sign |
| MintTransaction.ExistingMintRejected | solayer-nft-template/scripts/deploy_nft.js:219-227 | if the mint account already exists, the whole transaction fails |
| Confirmation.FirstConfirmed | solayer-nft-template/scripts/deploy_nft.js:71-79 | the index of the first confirmed or finalized answer, with no confirmed answer before it; none exactly when no answer confirms |
| Confirmation.Confirm | solayer-nft-template/scripts/deploy_nft.js:68-96 | success exactly when one of the first `maxRetries` answers confirms; success returns that status value after as many queries as its position, with one wait fewer; otherwise "Transaction confirmation timeout" after all `maxRetries` queries |
| Confirmation.PollingBudget | solayer-nft-template/scripts/deploy_nft.js:71-95 | at most `maxRetries` queries and fewer waits than attempts; a non-positive budget times out at once |
| Confirmation.NonConfirmingAnswersInterchangeable | solayer-nft-template/scripts/deploy_nft.js:81-87 | a non-confirming answer (null, pending, an `err` payload, a thrown query) can be replaced by any other without changing the outcome |
| Confirmation.ErrorPayloadsTimeOut | solayer-nft-template/scripts/deploy_nft.js:81-95 | `err` payloads on every attempt end in the timeout, not in an early failure |
| Confirmation.ConfirmedWinsOverErr | solayer-nft-template/scripts/deploy_nft.js:75-82 | a confirmed status is returned at once even when `err` is also set |
| Confirmation.PendingThenConfirmed | solayer-nft-template/scripts/deploy_nft.js:71-92 | N non-confirming answers then a confirmed one succeed after N + 1 queries and N waits |
| Confirmation.NeverConfirmedTimesOut | solayer-nft-template/scripts/deploy_nft.js:71-95 | no confirmed answer within the budget ends in the timeout after exactly `maxRetries` queries |
| Upload.FormData.constructor | solayer-nft-template/scripts/upload_to_ipfs.js:16 | a new form is empty |
| Upload.FormData.Append | solayer-nft-template/scripts/upload_to_ipfs.js:22-31 | `append` adds one part at the end |
| Upload.UploadImageToPinata | solayer-nft-template/scripts/upload_to_ipfs.js:4-57 | the imperative upload (guards, then the file read, whose error propagates, then the form built by appends, then the POST) equals the functional model the lemmas below describe |
| Upload.BasenameIsLastSegment | solayer-nft-template/scripts/upload_to_ipfs.js:18 | the file name is the text after the last '/': the whole path without '/', empty for a path ending in '/' |
| Upload.BasenameOfJoin | solayer-nft-template/scripts/upload_to_ipfs.js:18 | the file name of `dir/file` is `file` whenever `file` has no '/' |
| Upload.UploadResultUrl | solayer-nft-template/scripts/upload_to_ipfs.js:46-56 | an ok answer yields `{hash: IpfsHash, url: gateway + "/ipfs/" + IpfsHash}`, and the hash is the URL's last segment |
| Upload.JwtGuardComesFirst | solayer-nft-template/scripts/upload_to_ipfs.js:5-7 | without a JWT both calls fail with "PINATA_JWT not configured" and send nothing |
| Upload.FileGuardBeforeRequest | solayer-nft-template/scripts/upload_to_ipfs.js:9-11 | with a JWT but no file, the image call fails naming the path and sends nothing |
| Upload.ReadFailureSendsNothing | solayer-nft-template/scripts/upload_to_ipfs.js:16 | a file that exists but cannot be read fails the image call with the read error, and nothing is sent |
| Upload.SuccessNeedsOkAnswer | solayer-nft-template/scripts/upload_to_ipfs.js:41-44 | a call succeeds only after a request was sent and answered ok (for the image, only after the file was found and read); a non-ok answer fails with its text |
| Upload.ImageRequestCarriesFile | solayer-nft-template/scripts/upload_to_ipfs.js:16-39 | the image request carries the bearer token, no explicit Content-Type, and the file bytes unchanged, under the basename, which also names the pin |
| Upload.MetadataUpload | solayer-nft-template/scripts/upload_to_ipfs.js:59-100 | without a JWT the call fails with the JWT message and sends nothing; otherwise it POSTs the JSON body to pinJSONToIPFS with the bearer token and `Content-Type: application/json`, and its result is the answer settled under the metadata error prefix; success needs an ok answer |
| Upload.MetadataRequestCarriesMetadata | solayer-nft-template/scripts/upload_to_ipfs.js:66-82 | the metadata request is JSON with the bearer token, and pins the metadata unchanged, named `<name> Metadata` |
| Explorer.UpTo | solayer-nft-template/scripts/view_nft.js:49 | the text before the first `c` is a prefix free of `c`, followed by `c` or the end |
| Explorer.UpToOfAppend | solayer-nft-template/scripts/view_nft.js:49 | the text before the first `c` of `a + c + b` is `a`, when `a` has no `c` |
| Explorer.ParseTargetRoundTrip | solayer-nft-template/scripts/view_nft.js:49 | the id and cluster parts of a link read back |
| Explorer.KindOfPath | solayer-nft-template/scripts/view_nft.js:49-59 | the `tx` and `address` path segments read back as their kind |
| Explorer.ParseSegmentRoundTrip | solayer-nft-template/scripts/view_nft.js:49 | a path segment, an id and a cluster read back from their composition |
| Explorer.ParsePathRoundTrip | solayer-nft-template/scripts/view_nft.js:49 | a kind, an id and a cluster read back from their composition |
| Explorer.ParseLinkRoundTrip | solayer-nft-template/scripts/view_nft.js:49-59 | any link composed from a base, a kind, an id, a query and a cluster reads back as its parts |
| Explorer.ExplorerLink | solayer-nft-template/scripts/view_nft.js:49 | the Solana Explorer template link reads back as its kind, its id and the encoded RPC URL whenever the id holds no '?' |
| Explorer.SolanaFmLink | solayer-nft-template/scripts/view_nft.js:50 | the SolanaFM template link reads back as its kind, its id and the raw RPC URL whenever the id holds no '?' |
| Explorer.ExplorerLinkInjective | solayer-nft-template/scripts/view_nft.js:49 | different targets never share a Solana Explorer link |
| Deployer.MissingFields | solayer-nft-template/scripts/deploy_nft.js:123-124 | the missing list holds exactly the required fields (name, symbol, description, image) that are falsy, in that order |
| Deployer.MissingFieldsEmpty | solayer-nft-template/scripts/deploy_nft.js:124-128 | nothing is missing exactly when all four fields are truthy; an empty string counts as missing |
| Deployer.ValidateMetadata | solayer-nft-template/scripts/deploy_nft.js:119-145 | validation fails, listing the missing fields joined by ", ", whenever one is missing; it passes exactly when none is missing and the image is a string; a warning is issued only for an `http` image whose HEAD check did not succeed |
| Deployer.ImageCheckFailOpen | solayer-nft-template/scripts/deploy_nft.js:131-142 | whether validation fails, and how, never depends on the HEAD answer |
| Deployer.BelowMinimumIff | solayer-nft-template/scripts/deploy_nft.js:152-155 | `balance / LAMPORTS_PER_SOL < 0.01` holds exactly when the balance is below 10,000,000 lamports |
| Deployer.CheckPrerequisites | solayer-nft-template/scripts/deploy_nft.js:147-168 | the check passes exactly when the balance is at least 10,000,000 lamports and the probe succeeds; a low balance fails with "Insufficient balance"; a failed probe after a sufficient balance fails with "Network connectivity failed: …" |
| Deployer.BalanceCheckedBeforeProbe | solayer-nft-template/scripts/deploy_nft.js:151-161 | a low balance fails whatever the probe would answer |
| Deployer.DataUriDecodes | solayer-nft-template/scripts/deploy_nft.js:114 | the data URI starts with `data:application/json;base64,` and its payload decodes to the JSON bytes of the metadata |
| Deployer.CreateMetadataUri | solayer-nft-template/scripts/deploy_nft.js:98-117 | the URI is the pinned URL when a JWT is configured and the upload succeeds, and the data URI otherwise; upload errors never escape |
| Deployer.FallbackUriDecodes | solayer-nft-template/scripts/deploy_nft.js:102-116 | without a JWT, or after a failed upload, the URI is a data URI whose payload decodes to the metadata's JSON bytes |
| Deployer.Truncate | solayer-nft-template/scripts/deploy_nft.js:195 | a URI of at most 100 characters is kept whole; a longer one becomes its first 100 characters and "..." |
| Deployer.WrittenAt | solayer-nft-template/scripts/deploy_nft.js:59-62 | the k-th entry a run writes is its k-th record stamped with the k-th clock reading |
| Deployer.WrittenSteps | solayer-nft-template/scripts/deploy_nft.js:59-62 | each entry a run writes carries its own record's step and no other |
| Deployer.EntryCarriesStep | solayer-nft-template/scripts/deploy_nft.js:288-302 | each JSON record carries its step and only that step; a deployment record has `success: true`, its signature and its explorer link; a failure record has its error |
| Deployer.Complete | solayer-nft-template/scripts/deploy_nft.js:282-304 | after the signature: success exactly when a poll confirms, and then one deployment record naming the signature, the mint, the explorer link, the metadata and its whole URI; otherwise the timeout and no record |
| Deployer.Submit | solayer-nft-template/scripts/deploy_nft.js:209-304 | a transaction reaches the network exactly when the block hash and rent are known, and it is the mint transaction; success appends the sent record, then the deployment record |
| Deployer.Publish | solayer-nft-template/scripts/deploy_nft.js:192-304 | the first record is `metadata_prepared` with the truncated URI; success gives three records ending in the deployment, which carries the metadata and the whole URI |
| Deployer.Attempt | solayer-nft-template/scripts/deploy_nft.js:173-304 | a failure in loading, validation or the prerequisites appends nothing; otherwise the first record is `metadata_prepared` with the loaded metadata and its metadata URI (cut to 100 characters plus "..." when longer), and a deployed record carries the same metadata and the whole URI; a sent transaction is always the mint transaction of the payer |
| Deployer.RecordOrder | solayer-nft-template/scripts/deploy_nft.js:170-333 | a successful run appends `metadata_prepared`, `transaction_sent` and `nft_deployed` in order; a failed run appends the steps it reached, then exactly one `deployment_failed` record carrying the error; the prepared record holds the loaded metadata and its truncated metadata URI |
| Deployer.OutcomeLastEntries | solayer-nft-template/scripts/deploy_nft.js:288-329 | in the JSON records, only the last carries an outcome step, and it carries the outcome's |
| Deployer.LastEntryEndsRun | solayer-nft-template/scripts/deploy_nft.js:170-333 | a run writes one to three entries; the last is `nft_deployed` exactly on success and `deployment_failed` exactly on failure, and no earlier entry has either step |
| Deployer.RunEndsWithOutcome | solayer-nft-template/scripts/deploy_nft.js:170-333 | every run ends in exactly one outcome record, a deployment exactly when the run succeeds |
| Deployer.EarlyFailureSendsNothing | solayer-nft-template/scripts/deploy_nft.js:178-187 | a failure before the metadata URI appends only the failure record and sends nothing |
| Deployer.LowBalanceSendsNothing | solayer-nft-template/scripts/deploy_nft.js:151-157 | a balance below 0.01 SOL stops the run with only the failure record and no transaction |
| Deployer.SentTransactionShape | solayer-nft-template/scripts/deploy_nft.js:216-269 | whatever reaches the network is the payer's mint transaction, signed by the payer and the mint key; a run succeeds only after sending it |
| Deployer.ConfirmationTimeoutRecorded | solayer-nft-template/scripts/deploy_nft.js:275-331 | a confirmation timeout fails the run after the sent record, which names the signature, and records the timeout |
| Deployer.DeployedExplorerLink | solayer-nft-template/scripts/deploy_nft.js:288-301 | the deployment record names the submitted signature and the fresh mint, and its explorer link is the Solana Explorer transaction link on the encoded RPC URL |
| Deployer.Prepare | solayer-nft-template/scripts/deploy_nft.js:178-187 | a missing metadata file fails naming the path, an unreadable one with the read or parse error; on success the parsed metadata and the payer go on |
| Deployer.PrepareChecksInOrder | solayer-nft-template/scripts/deploy_nft.js:186-187 | validation runs before the prerequisite check, whose error only shows for valid metadata; the run goes on exactly when the file parses and both checks pass |
| Deployer.Deploy | solayer-nft-template/scripts/deploy_nft.js:170-333 | a run returns the `try` body's result and transaction; a failure appends exactly one failure record, carrying the error, the path and the time, after the records the `try` appended |
| Deployer.SubmitTimesOut | solayer-nft-template/scripts/deploy_nft.js:269-282 | a transaction sent but never confirmed leaves only the sent record and fails with the timeout |
| Deployer.NothingPrepared | solayer-nft-template/scripts/deploy_nft.js:178-190 | when loading, validation or the prerequisites fail, the `try` appends nothing |
| Deployer.NFTDeployer.constructor | solayer-nft-template/scripts/deploy_nft.js:22-26 | a new deployer has no connection and no payer |
| Deployer.NFTDeployer.Initialize | solayer-nft-template/scripts/deploy_nft.js:28-51 | initialisation succeeds exactly when the keypair file exists and can be read; it then sets the payer and the connection; otherwise it fails with "Failed to initialize deployer: …" and changes nothing |
| Deployer.NFTDeployer.ConfirmTransaction | solayer-nft-template/scripts/deploy_nft.js:68-96 | the retry loop computes exactly `Confirmation.Confirm`: the same result, the same number of queries and of waits |
| Deployer.NFTDeployer.TryDeploy | solayer-nft-template/scripts/deploy_nft.js:173-304 | the `try` body appends exactly the run's records, in order, each stamped, and returns its result |
| Deployer.NFTDeployer.PublishAndRecord | solayer-nft-template/scripts/deploy_nft.js:190-304 | from the metadata URI on, the index grows by exactly the records of `Publish` |
| Deployer.NFTDeployer.SubmitAndRecord | solayer-nft-template/scripts/deploy_nft.js:199-304 | from the prepared record on, the index grows by exactly the records of `Submit` |
| Deployer.NFTDeployer.ConfirmAndRecord | solayer-nft-template/scripts/deploy_nft.js:282-304 | the deployment record is appended only after a confirmation |
| Deployer.NFTDeployer.DeployNFT | solayer-nft-template/scripts/deploy_nft.js:170-333 | `deployNFT` leaves the index as its old entries followed by the run's stamped records, with one failure record on any error, and returns the run's result |
| Api.Observe | solayer-nft-template/server/api.js:71 | a request finds no file exactly when the deployer has written nothing yet, and otherwise the deployer's array |
| Api.StepQuery | solayer-nft-template/server/api.js:81-82 | the step filter applies exactly when `step` is present and non-empty |
| Api.ListDeployments | solayer-nft-template/server/api.js:69-99 | a missing file gives 404 "No deployments found"; an unreadable one gives 500 with its message; otherwise `total` is the length of the returned list and `filters` echoes the query |
| Api.ListingSelectsStep | solayer-nft-template/server/api.js:81-90 | without a step every record is returned; with one, exactly the records of that step, each as often as in the file, in file order |
| Api.LatestDeployment | solayer-nft-template/server/api.js:102-128 | a missing file gives 404, an unreadable one 500; a returned record comes from the file and has step `nft_deployed` |
| Api.LatestIsLastDeployed | solayer-nft-template/server/api.js:111-120 | the latest is the last `nft_deployed` record, whatever its `success` flag; there is a 404 exactly when no record has that step |
| Api.Count | solayer-nft-template/server/api.js:143-144 | a step count is the number of records whose `step` is the given one, so never more than the number of records |
| Api.RoundHalfUp | solayer-nft-template/server/api.js:151 | the result is the nearest integer to n/d, with halves rounded up |
| Api.SuccessRate | solayer-nft-template/server/api.js:151 | the rate lies in 0..100, is 0 when nothing is counted, and otherwise is 100·successful/total rounded to the nearest integer, halves up |
| Api.ComputeStats | solayer-nft-template/server/api.js:131-160 | a missing file gives all-zero counts and no `lastDeployment`; an unreadable one gives 500; otherwise successful and failed are the counts of `nft_deployed` and `deployment_failed` records, total is their sum, the rate is their rounded percentage and `lastDeployment` is the last record's timestamp, or null for an empty file |
| Api.SuccessRateExtremes | solayer-nft-template/server/api.js:151 | the rate is 100 exactly when failures are at most 1/199 of successes, and 0 exactly when nothing is counted or failures exceed 199 times the successes |
| Api.CountsIgnoreOtherSteps | solayer-nft-template/server/api.js:143-145 | successful, failed and other-step records partition the file |
| Api.MissingIndexAnswers | solayer-nft-template/server/api.js:71-76 | before the first deployment the listing and the latest answer 404, and the statistics are all zero |
| Api.RunCounted | solayer-nft-template/server/api.js:143-152 | appending a run's entries raises the matching count by its outcome alone, and the last timestamp becomes the run's last clock reading |
| Api.WrittenCounts | solayer-nft-template/server/api.js:143-144 | of a run's entries, only the last is counted, under its outcome's step |
| Api.LastStamp | solayer-nft-template/server/api.js:152 | after a run, the index's last entry carries the run's last clock reading |
| Api.DeploymentCountedOnce | solayer-nft-template/server/api.js:143-152 | one deployment run moves the statistics by exactly one: a success adds a successful deployment, a failure a failed one, and `lastDeployment` becomes the run's last timestamp |
| Viewer.SelectLatest | solayer-nft-template/scripts/view_nft.js:16-18 | the selected entry comes from the index and is an `nft_deployed` entry with a truthy `success` |
| Viewer.SelectLatestIsLast | solayer-nft-template/scripts/view_nft.js:16-18 | the selection is the last successful deployment, and there is none exactly when no entry is one |
| Viewer.ViewNFT | solayer-nft-template/scripts/view_nft.js:12-59 | an unreadable index and an empty selection each end the run early; the run crashes on the name line exactly when the selected entry has no metadata object; otherwise the selected entry is shown with its five links |
| Viewer.LinksFor | solayer-nft-template/scripts/view_nft.js:45-59 | the five printed links read back as their kind and id, with the encoded RPC URL in the Explorer links and the raw one in the SolanaFM links |
| Viewer.LastSuccessfulShown | solayer-nft-template/scripts/view_nft.js:16-31 | an appended successful deployment with a metadata object is the entry the viewer shows |
| Viewer.DeployedEntryShown | solayer-nft-template/scripts/view_nft.js:16-31 | once the deployer appends a deployment entry, the viewer shows that entry, and its transaction link is the `explorer` link stored in it |
| Viewer.StampedDeployedFields | solayer-nft-template/scripts/view_nft.js:17 | a stamped deployment entry is selectable and keeps its signature, RPC URL, metadata and explorer link |
| Viewer.DeployerMarksSuccess | solayer-nft-template/scripts/view_nft.js:17 | the deployer marks every deployment it writes as successful, so every `nft_deployed` entry stays marked |
| Viewer.ViewerAgreesWithApi | solayer-nft-template/scripts/view_nft.js:16-18 | on an index the deployer wrote, the viewer selects the same entry as `/api/deployments/latest` |
| MintAccount.DecodeMint | solayer-nft-template/scripts/verify_transaction.js:88-101 | fields are decoded exactly when the owner is the token program and the data holds at least 82 bytes; decimals is byte 44; the mint authority is present exactly when byte 0 is 1; the supply fits in 64 bits |
| MintAccount.OptionalKey | solayer-nft-template/scripts/verify_transaction.js:95 | an optional key occupies 36 bytes, and its first byte is 1 exactly when the key is present |
| MintAccount.EncodeMint | solayer-nft-template/scripts/verify_transaction.js:94 | the mint layout is 82 bytes |
| MintAccount.DecodeEncodeMint | solayer-nft-template/scripts/verify_transaction.js:95-100 | decoding an account the token program wrote gives back its supply (bytes 36..43 little-endian), its decimals and whether it has a mint authority |
| MintAccount.DecodeIgnoresTail | solayer-nft-template/scripts/verify_transaction.js:94-97 | bytes after the 82nd never change what is reported |
| MintAccount.StateOf | solayer-nft-template/scripts/verify_transaction.js:94 | a mint of the token semantics has a well-formed layout |
| MintAccount.DeployedMintReadsAsNft | solayer-nft-template/scripts/verify_transaction.js:88-101 | the mint the deployment creates reads back as supply 1, 0 decimals, with a mint authority |
| MintAccount.StatusLabel | solayer-nft-template/scripts/verify_transaction.js:41 | the status is "Failed" exactly when `err` is truthy, and "Success" otherwise |
| MintAccount.MetaErr | solayer-nft-template/scripts/verify_transaction.js:64 | `meta?.err` is defined exactly when the metadata is an object holding `err` |
| MintAccount.History | solayer-nft-template/scripts/verify_transaction.js:120-128 | each history line has its 1-based position and its signature; it is marked as ours exactly when the signature is the target; it is "Failed" exactly when its `err` is truthy |
| MintAccount.OursMarkedOnce | solayer-nft-template/scripts/verify_transaction.js:121 | when the signatures are distinct, at most one line is marked as ours |

## Left out

- `scripts/setup.js` is not part of this model. It only runs shell commands:
  the Solana CLI, key generation, the airdrop and file creation.
- **Network I/O.** The following are input values of the model (fields of
  `Deployer.Network`, `Upload.PinAnswer`, `Deployer.HeadAnswer`,
  `Confirmation.PollOutcome`), not calls:
  - the signature-status queries, `getBalance`, `getLatestBlockhash`,
    `sendRawTransaction`;
  - the image HEAD request and the Pinata POSTs;
  - the viewer's account and image checks and the verifier's RPC queries.
- **Solana SDK internals.** These are uninterpreted functions or opaque
  values:
  - keypair generation, which supplies the `mint` input;
  - associated-token-address derivation;
  - instruction encoding, transaction serialisation and signing;
  - the rent computation.
- **Library calls without a specification here.** `JSON.parse`,
  `JSON.stringify`, `encodeURIComponent` and `path.join` are uninterpreted
  arrow-typed parameters. The rendering of a SOL amount (`showSol`) is one
  too.
- **The filesystem.** File existence and read results are inputs. A
  read or write failure inside `appendToIndex` is not modelled; such a
  failure would make the deployer throw at an arbitrary step.
- **Time.**
  - The 2-second waits are counted, not waited for.
  - `new Date().toISOString()` is the k-th element of an input sequence of
    clock readings, one per append.
  - `Date.now()` differences are one input, `elapsedMs`.
- Deployer.NFTDeployer.DeployNFT: the elapsed time of a failure record is
  the same input as that of a success record. The script reads the clock
  again in its `catch`.
- Deployer.NFTDeployer.DeployNFT: requires at least 30 poll answers and 3
  clock readings. These are the sizes of the model's oracle sequences, not
  demands on the caller.
- **Floating point.**
  - The 0.01 SOL threshold is compared exactly, in lamports.
  - `toFixed` and `toLocaleString` formatting is left out.
- Api.SuccessRate: rounds the exact rational 100·s/t half-up. `Math.round`
  on a double can differ where the double product is not exact at a .5
  boundary.
- **JSON numbers** are integers: the ledger only ever holds lamports,
  milliseconds and slots.
- **The index file.** Its content, and each metadata file, are assumed to
  parse to an array of objects and an object respectively. A non-object
  element, or a non-object metadata file, is not modelled.
- Api.StepQuery: a `step` query given as an array (`?step=a&step=b`) is not
  modelled. Query values are strings.
- Deployer.Truncate: counts characters, whereas JavaScript counts UTF-16
  code units. The two agree on ASCII URIs, and the data URI and gateway URLs
  are ASCII.
- **Connection construction.** The errors `new Connection` can raise
  are not modelled. `Initialize` fails only on a missing or unreadable
  keypair.
- **Server scaffolding.** CORS and security headers, logging, the 404/500
  middleware, `listen` and signal handling are left out. So is console
  output, except for the printed values the model names, and
  `process.exit`.
- **Concurrency.** The server's concurrent readers and cross-process
  races on the index file are left out. The index has a single writer and is
  read as a value.
