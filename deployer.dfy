/**
 * The NFT deployer: metadata validation, the prerequisite check, the
 * metadata URI, the confirmation poller and the `deployNFT` pipeline with
 * the ledger records it appends.
 */
module Deployer {
  import opened Wrappers
  import opened JsonValue
  import opened Strings
  import opened Seqs
  import opened Bytes
  import Base64
  import Config
  import opened Ledger
  import opened MintTransaction
  import opened Confirmation
  import Upload
  import Explorer

  // ---- Metadata validation ----

  const RequiredFields: seq<string> := ["name", "symbol", "description", "image"]
  const MissingFieldsPrefix := "Missing required metadata fields: "
  const ImageNotStringMessage := "metadata.image.startsWith is not a function"

  /** The required fields that are absent or falsy, in the fixed order. */
  function MissingFields(metadata: Entry): (r: seq<string>)
    ensures forall i :: 0 <= i < |r| ==> r[i] in RequiredFields && !Truthy(Get(metadata, r[i]))
    ensures forall f :: f in RequiredFields && !Truthy(Get(metadata, f)) ==> f in r
    ensures IsSubsequence(r, RequiredFields)
  {
    Filter(RequiredFields, f => !Truthy(Get(metadata, f)))
  }

  /** Nothing is missing exactly when all four fields are truthy; an empty string counts as missing. */
  lemma MissingFieldsEmpty(metadata: Entry)
    ensures MissingFields(metadata) == [] <==>
      Truthy(Get(metadata, "name")) && Truthy(Get(metadata, "symbol")) &&
      Truthy(Get(metadata, "description")) && Truthy(Get(metadata, "image"))
  {
    var r := MissingFields(metadata);
    forall f | f in RequiredFields && !Truthy(Get(metadata, f))
      ensures r != []
    {
      assert f in r;
    }
    if r != [] {
      assert r[0] in RequiredFields && !Truthy(Get(metadata, r[0]));
    }
  }

  /** The answer to the image `HEAD` request. */
  datatype HeadAnswer =
    | HeadOk
    | HeadNotOk(status: int, statusText: string)
    | HeadThrew(msg: string)

  /** `metadata.image.startsWith('http')`, for an image known to be truthy. */
  function ImageIsRemote(image: Json): Result<bool>
  {
    if image.JStr? then Ok(StartsWith(image.s, "http")) else Err(ImageNotStringMessage)
  }

  /**
   * `validateMetadata(metadata)`: fails on missing fields or a non-string
   * image; otherwise passes, with the warning logged when a remote image
   * could not be verified.
   */
  function ValidateMetadata(metadata: Entry, head: HeadAnswer): (r: Result<Option<string>>)
    ensures MissingFields(metadata) != [] ==> r == Err(MissingFieldsPrefix + Join(MissingFields(metadata), ", "))
    ensures r.Ok? <==> MissingFields(metadata) == [] && Get(metadata, "image").value.JStr?
    ensures r.Ok? && r.value.Some? ==> StartsWith(metadata["image"].s, "http") && !head.HeadOk?
  {
    var missing := MissingFields(metadata);
    if missing != [] then Err(MissingFieldsPrefix + Join(missing, ", "))
    else
      assert "image" in RequiredFields;
      var remote :- ImageIsRemote(metadata["image"]);
      if !remote then Ok(None)
      else
        match head
        case HeadOk => Ok(None)
        case HeadNotOk(status, text) => Ok(Some("Image not accessible: " + ShowInt(status) + " " + text))
        case HeadThrew(msg) => Ok(Some(msg))
  }

  /** The image check is fail-open: whether and how validation fails never depends on the HEAD answer. */
  lemma ImageCheckFailOpen(metadata: Entry, head1: HeadAnswer, head2: HeadAnswer)
    ensures ValidateMetadata(metadata, head1).Ok? == ValidateMetadata(metadata, head2).Ok?
    ensures ValidateMetadata(metadata, head1).Err? ==> ValidateMetadata(metadata, head1) == ValidateMetadata(metadata, head2)
  {
  }

  // ---- Prerequisites ----

  const LamportsPerSol := 1_000_000_000
  const MinimumLamports := 10_000_000
  const NetworkFailedPrefix := "Network connectivity failed: "

  /** `balance / LAMPORTS_PER_SOL < 0.01`, in exact arithmetic. */
  predicate BelowMinimum(balance: nat)
  {
    (balance as real) / (LamportsPerSol as real) < 0.01
  }

  /** The SOL threshold is the lamport threshold. */
  lemma BelowMinimumIff(balance: nat)
    ensures BelowMinimum(balance) <==> balance < MinimumLamports
  {
  }

  function InsufficientMessage(balanceText: string): string
  {
    "Insufficient balance. Need at least 0.01 SOL, have " + balanceText + " SOL"
  }

  /**
   * `checkPrerequisites()` for a deployer whose payer is `payer` (`None`
   * before `initialize`): the balance (`getBalance`'s answer, rendered by
   * `showSol` as JavaScript prints the SOL amount) first, then the block hash
   * probe. Passing yields the payer.
   */
  function CheckPrerequisites(payer: Option<Pubkey>, balance: Result<nat>, showSol: nat -> string,
                              probe: Result<string>): (r: Result<Pubkey>)
    ensures r.Ok? <==> payer.Some? && balance.Ok? && balance.value >= MinimumLamports && probe.Ok?
    ensures r.Ok? ==> r.value == payer.value
    ensures payer.Some? && balance.Ok? && BelowMinimum(balance.value) ==>
              r == Err(InsufficientMessage(showSol(balance.value)))
    ensures payer.Some? && balance.Ok? && !BelowMinimum(balance.value) && probe.Err? ==>
              r == Err(NetworkFailedPrefix + probe.msg)
  {
    if payer.None? then Err("Cannot read properties of null (reading 'getBalance')")
    else
      var lamports :- balance;
      BelowMinimumIff(lamports);
      if BelowMinimum(lamports) then Err(InsufficientMessage(showSol(lamports)))
      else if probe.Err? then Err(NetworkFailedPrefix + probe.msg)
      else Ok(payer.value)
  }

  /** A low balance fails before, and whatever, the network probe answers. */
  lemma BalanceCheckedBeforeProbe(payer: Pubkey, balance: nat, showSol: nat -> string, probe1: Result<string>, probe2: Result<string>)
    requires balance < MinimumLamports
    ensures CheckPrerequisites(Some(payer), Ok(balance), showSol, probe1) == CheckPrerequisites(Some(payer), Ok(balance), showSol, probe2)
    ensures CheckPrerequisites(Some(payer), Ok(balance), showSol, probe1).Err?
  {
    BelowMinimumIff(balance);
  }

  // ---- Metadata URI ----

  const DataUriPrefix := "data:application/json;base64,"
  const UriDisplayLimit := 100

  /** `data:application/json;base64,` followed by the base64 of the JSON text's bytes. */
  function DataUri(metadata: Entry, stringify: Json -> seq<Byte>): string
  {
    DataUriPrefix + Base64.Encode(stringify(JObj(metadata)))
  }

  /** The data URI carries the metadata's JSON bytes, recovered by decoding its payload. */
  lemma DataUriDecodes(metadata: Entry, stringify: Json -> seq<Byte>)
    ensures StartsWith(DataUri(metadata, stringify), DataUriPrefix)
    ensures Base64.Decode(DataUri(metadata, stringify)[|DataUriPrefix|..]) == Some(stringify(JObj(metadata)))
  {
    var uri := DataUri(metadata, stringify);
    assert uri[|DataUriPrefix|..] == Base64.Encode(stringify(JObj(metadata)));
    Base64.DecodeEncode(stringify(JObj(metadata)));
  }

  /**
   * `createMetadataUri(metadata)`: the pinned URL when a JWT is configured
   * and the upload succeeds, the data URI otherwise; upload errors never
   * escape.
   */
  function CreateMetadataUri(cfg: Config.Configuration, metadata: Entry, answer: Upload.PinAnswer,
                             stringify: Json -> seq<Byte>): (uri: string)
    ensures var upload := Upload.MetadataUpload(cfg, metadata, answer).result;
            if cfg.JwtConfigured() && upload.Ok? then uri == upload.value.url
            else uri == DataUri(metadata, stringify)
  {
    if cfg.JwtConfigured() then
      match Upload.MetadataUpload(cfg, metadata, answer).result
      case Ok(pinned) => pinned.url
      case Err(_) => DataUri(metadata, stringify)
    else DataUri(metadata, stringify)
  }

  /** Without a JWT, or when the upload fails, the URI is the data URI, whose payload decodes to the metadata's JSON. */
  lemma FallbackUriDecodes(cfg: Config.Configuration, metadata: Entry, answer: Upload.PinAnswer, stringify: Json -> seq<Byte>)
    requires !cfg.JwtConfigured() || !answer.PinOk?
    ensures var uri := CreateMetadataUri(cfg, metadata, answer, stringify);
            StartsWith(uri, DataUriPrefix) &&
            Base64.Decode(uri[|DataUriPrefix|..]) == Some(stringify(JObj(metadata)))
  {
    DataUriDecodes(metadata, stringify);
  }

  /** The URI as the `metadata_prepared` record keeps it: at most 100 characters, then "...". */
  function Truncate(uri: string): (r: string)
    ensures |uri| <= UriDisplayLimit ==> r == uri
    ensures |uri| > UriDisplayLimit ==> |r| == UriDisplayLimit + 3 && StartsWith(uri, r[..UriDisplayLimit])
                                        && r[UriDisplayLimit..] == "..."
    ensures |r| <= UriDisplayLimit + 3
  {
    if |uri| > UriDisplayLimit then uri[..UriDisplayLimit] + "..." else uri
  }

  // ---- Ledger records ----

  /** The records `deployNFT` appends, before they are written as JSON objects. */
  datatype Record =
    | Prepared(metadata: Entry, metadataUri: string)
    | Sent(signature: string, mint: Pubkey)
    | Deployed(mint: Pubkey, tokenAccount: Pubkey, signature: string, metadata: Entry, metadataUri: string,
               network: string, rpcUrl: string, deploymentTimeMs: nat, status: Json, explorer: string)
    | Failed(error: string, metadataFile: string, deploymentTimeMs: nat)
  {
    function Step(): string
    {
      match this
      case Prepared(_, _) => StepPrepared
      case Sent(_, _) => StepSent
      case Deployed(_, _, _, _, _, _, _, _, _, _) => StepDeployed
      case Failed(_, _, _) => StepFailed
    }
  }

  /** `imageUrl: metadata.image`; a missing image leaves the key out of the JSON. */
  function ImageUrlField(metadata: Entry): (r: Entry)
    ensures r.Keys <= {"imageUrl"}
  {
    if "image" in metadata then map["imageUrl" := metadata["image"]] else map[]
  }

  /** The JSON object written to the index for a record. */
  function ToEntry(r: Record): Entry
  {
    match r
    case Prepared(metadata, uri) =>
      map["step" := JStr(StepPrepared), "metadata" := JObj(metadata), "metadataUri" := JStr(uri)]
    case Sent(signature, mint) =>
      map["step" := JStr(StepSent), "signature" := JStr(signature), "mint" := JStr(mint)]
    case Deployed(mint, ata, signature, metadata, uri, network, rpcUrl, elapsedMs, status, explorer) =>
      map["step" := JStr(StepDeployed),
          "success" := JBool(true),
          "mint" := JStr(mint),
          "tokenAccount" := JStr(ata),
          "signature" := JStr(signature),
          "metadata" := JObj(metadata),
          "metadataUri" := JStr(uri),
          "network" := JStr(network),
          "rpcUrl" := JStr(rpcUrl),
          "deploymentTimeMs" := JNum(elapsedMs),
          "status" := status,
          "explorer" := JStr(explorer)]
      + ImageUrlField(metadata)
    case Failed(error, metadataFile, elapsedMs) =>
      map["step" := JStr(StepFailed), "error" := JStr(error), "metadataFile" := JStr(metadataFile),
          "deploymentTimeMs" := JNum(elapsedMs)]
  }

  function ToEntries(records: seq<Record>): (r: seq<Entry>)
    ensures |r| == |records| && forall i :: 0 <= i < |r| ==> r[i] == ToEntry(records[i])
  {
    seq(|records|, i requires 0 <= i < |records| => ToEntry(records[i]))
  }

  /**
   * The index entries a run writes: each record as JSON, stamped with the
   * clock reading of its own append; `stamps[k]` is the reading taken when
   * the k-th record of the run is appended.
   */
  function Written(records: seq<Record>, stamps: seq<string>): seq<Entry>
    requires |records| <= |stamps|
    decreases |records|
  {
    if records == [] then [] else [Stamp(ToEntry(records[0]), stamps[0])] + Written(records[1..], stamps[1..])
  }

  lemma WrittenCons(record: Record, records: seq<Record>, stamps: seq<string>)
    requires 1 + |records| <= |stamps|
    ensures Written([record] + records, stamps) == [Stamp(ToEntry(record), stamps[0])] + Written(records, stamps[1..])
  {
    assert ([record] + records)[1..] == records;
  }

  lemma {:induction false} WrittenSnoc(records: seq<Record>, record: Record, stamps: seq<string>)
    requires |records| < |stamps|
    ensures Written(records + [record], stamps) == Written(records, stamps) + [Stamp(ToEntry(record), stamps[|records|])]
    decreases |records|
  {
    if records == [] {
      assert [] + [record] == [record];
      WrittenCons(record, [], stamps);
    } else {
      assert records + [record] == [records[0]] + (records[1..] + [record]);
      WrittenCons(records[0], records[1..] + [record], stamps);
      WrittenSnoc(records[1..], record, stamps[1..]);
      WrittenCons(records[0], records[1..], stamps);
      assert [records[0]] + records[1..] == records;
    }
  }

  /** What a run writes is exactly its records' JSON forms, in order, each with its own stamp. */
  lemma {:induction false} WrittenAt(records: seq<Record>, stamps: seq<string>)
    requires |records| <= |stamps|
    ensures |Written(records, stamps)| == |records|
    ensures forall i :: 0 <= i < |records| ==> Written(records, stamps)[i] == Stamp(ToEntry(records[i]), stamps[i])
    decreases |records|
  {
    if records != [] {
      WrittenAt(records[1..], stamps[1..]);
      var w := Written(records, stamps);
      forall i | 0 <= i < |records|
        ensures w[i] == Stamp(ToEntry(records[i]), stamps[i])
      {
        if i > 0 {
          assert w[i] == Written(records[1..], stamps[1..])[i - 1];
        }
      }
    }
  }

  /** The outcome steps name exactly the outcome records. */
  lemma StepIdentifies(r: Record)
    ensures r.Step() == StepDeployed <==> r.Deployed?
    ensures r.Step() == StepFailed <==> r.Failed?
  {
  }

  /** Each entry a run writes carries its own record's step and no other. */
  lemma WrittenSteps(records: seq<Record>, stamps: seq<string>)
    requires |records| <= |stamps|
    ensures |Written(records, stamps)| == |records|
    ensures forall i, step :: 0 <= i < |records| ==>
              (HasStep(Written(records, stamps)[i], step) <==> step == records[i].Step())
  {
    WrittenAt(records, stamps);
    forall i, step | 0 <= i < |records|
      ensures HasStep(Written(records, stamps)[i], step) <==> step == records[i].Step()
    {
      EntryCarriesStep(records[i]);
      StampKeepsStep(ToEntry(records[i]), stamps[i], step);
    }
  }

  /**
   * Each JSON record carries its step, so the queries over the index see the
   * step the pipeline meant; a deployment record is marked successful.
   */
  lemma EntryCarriesStep(r: Record)
    ensures HasStep(ToEntry(r), r.Step())
    ensures forall s :: s != r.Step() ==> !HasStep(ToEntry(r), s)
    ensures r.Deployed? ==> Get(ToEntry(r), "success") == Some(JBool(true)) &&
                            Get(ToEntry(r), "signature") == Some(JStr(r.signature)) &&
                            Get(ToEntry(r), "explorer") == Some(JStr(r.explorer))
    ensures r.Failed? ==> Get(ToEntry(r), "error") == Some(JStr(r.error))
  {
    if r.Deployed? {
      assert "step" !in ImageUrlField(r.metadata);
      assert "success" !in ImageUrlField(r.metadata);
      assert "signature" !in ImageUrlField(r.metadata);
      assert "explorer" !in ImageUrlField(r.metadata);
    }
  }

  // ---- The deployment pipeline ----

  /** The metadata file as `existsSync`, `readFileSync` and `JSON.parse` find it. */
  datatype MetadataFile =
    | FileMissing
    | FileUnreadable(msg: string)
    | FileParsed(metadata: Entry)

  /** The answers of the network and of the key generator during one run. */
  datatype Network = Network(
    head: HeadAnswer,               // the image HEAD request
    balance: Result<nat>,           // getBalance, in lamports
    probe: Result<string>,          // getLatestBlockhash inside checkPrerequisites
    pin: Upload.PinAnswer,          // the metadata upload
    mint: Pubkey,                   // Keypair.generate()
    blockhash: Result<string>,      // getLatestBlockhash for the transaction
    rent: Result<int>,              // getMinimumBalanceForRentExemptMint
    send: Result<string>,           // sendRawTransaction: the signature
    polls: seq<PollOutcome>)        // the getSignatureStatus answers, in order

  /** Library calls the model does not look inside. */
  datatype Foreign = Foreign(
    ata: (Pubkey, Pubkey) -> Pubkey,      // getAssociatedTokenAddress(mint, owner)
    stringify: Json -> seq<Byte>,         // the UTF-8 bytes of JSON.stringify
    encodeUri: string -> string,          // encodeURIComponent
    showSol: nat -> string)               // `${lamports / LAMPORTS_PER_SOL}`

  /** Records appended, the result, and the transaction handed to the network, if any. */
  datatype Progress = Progress(records: seq<Record>, result: Result<Record>, sent: Option<SignedTx>)

  /** Loading, validation and the prerequisite check: nothing is appended before these pass. */
  function Prepare(payer: Option<Pubkey>, path: string, file: MetadataFile, net: Network, ff: Foreign)
    : (r: Result<(Entry, Pubkey)>)
    ensures file.FileMissing? ==> r == Err("Metadata file not found: " + path)
    ensures file.FileUnreadable? ==> r == Err(file.msg)
    ensures r.Ok? ==> file.FileParsed? && r.value.0 == file.metadata && payer == Some(r.value.1)
  {
    match file
    case FileMissing => Err("Metadata file not found: " + path)
    case FileUnreadable(msg) => Err(msg)
    case FileParsed(metadata) =>
      var _ :- ValidateMetadata(metadata, net.head);
      var key :- CheckPrerequisites(payer, net.balance, ff.showSol, net.probe);
      Ok((metadata, key))
  }

  /**
   * The metadata is validated before the prerequisites are checked, and the
   * run goes on exactly when the file parses and both pass.
   */
  lemma PrepareChecksInOrder(payer: Option<Pubkey>, path: string, file: MetadataFile, net: Network, ff: Foreign)
    ensures file.FileParsed? && ValidateMetadata(file.metadata, net.head).Err? ==>
              Prepare(payer, path, file, net, ff) == Err(ValidateMetadata(file.metadata, net.head).msg)
    ensures file.FileParsed? && ValidateMetadata(file.metadata, net.head).Ok? ==>
              Prepare(payer, path, file, net, ff).Err? ==>
              Prepare(payer, path, file, net, ff) == Err(CheckPrerequisites(payer, net.balance, ff.showSol, net.probe).msg)
    ensures Prepare(payer, path, file, net, ff).Ok? <==>
              file.FileParsed? && ValidateMetadata(file.metadata, net.head).Ok? &&
              CheckPrerequisites(payer, net.balance, ff.showSol, net.probe).Ok?
  {
  }

  function DeployedRecord(cfg: Config.Configuration, metadata: Entry, uri: string, mint: Pubkey, ata: Pubkey,
                          signature: string, status: Json, elapsedMs: nat, encodeUri: string -> string): Record
  {
    Deployed(mint, ata, signature, metadata, uri, cfg.network, cfg.rpcUrl, elapsedMs, status,
             Explorer.ExplorerLink(Explorer.Tx, signature, encodeUri(cfg.rpcUrl)))
  }

  /** From the submitted signature on: poll, then record the deployment. */
  function Complete(cfg: Config.Configuration, metadata: Entry, uri: string, mint: Pubkey, ata: Pubkey,
                    signature: string, net: Network, ff: Foreign, elapsedMs: nat): (p: Progress)
    requires |net.polls| >= DefaultMaxRetries
    ensures p.sent.None?
    ensures p.result.Ok? <==> exists k :: 0 <= k < DefaultMaxRetries && IsConfirmed(net.polls[k])
    ensures p.result.Ok? ==> p.records == [p.result.value] && p.result.value.Deployed? &&
                             p.result.value.signature == signature && p.result.value.mint == mint &&
                             p.result.value.explorer == Explorer.ExplorerLink(Explorer.Tx, signature, ff.encodeUri(cfg.rpcUrl)) &&
                             p.result.value.metadata == metadata && p.result.value.metadataUri == uri
    ensures p.result.Err? ==> p.records == [] && p.result.msg == TimeoutMessage
  {
    var poll := Confirm(net.polls, DefaultMaxRetries);
    if poll.result.Err? then Progress([], Err(poll.result.msg), None)
    else
      var deployed := DeployedRecord(cfg, metadata, uri, mint, ata, signature, poll.result.value, elapsedMs, ff.encodeUri);
      Progress([deployed], Ok(deployed), None)
  }

  /** From the prepared metadata on: block hash, rent, the transaction, its submission, then `Complete`. */
  function Submit(cfg: Config.Configuration, key: Pubkey, metadata: Entry, uri: string,
                  net: Network, ff: Foreign, elapsedMs: nat): (p: Progress)
    requires |net.polls| >= DefaultMaxRetries
    ensures p.sent.Some? <==> net.blockhash.Ok? && net.rent.Ok?
    ensures p.sent.Some? ==> p.sent.value == MintTx(key, net.mint, ff.ata(net.mint, key), net.rent.value, net.blockhash.value)
    ensures p.result.Ok? ==> p.sent.Some? && net.send.Ok? && |p.records| == 2 &&
                             p.records[0] == Sent(net.send.value, net.mint) && p.records[1] == p.result.value &&
                             p.result.value.Deployed? && p.result.value.signature == net.send.value &&
                             p.result.value.metadata == metadata && p.result.value.metadataUri == uri
    ensures p.result.Err? ==> p.records == [] || (net.send.Ok? && p.records == [Sent(net.send.value, net.mint)])
  {
    var ata := ff.ata(net.mint, key);
    if net.blockhash.Err? then Progress([], Err(net.blockhash.msg), None)
    else if net.rent.Err? then Progress([], Err(net.rent.msg), None)
    else
      var tx := MintTx(key, net.mint, ata, net.rent.value, net.blockhash.value);
      if net.send.Err? then Progress([], Err(net.send.msg), Some(tx))
      else
        var signature := net.send.value;
        var rest := Complete(cfg, metadata, uri, net.mint, ata, signature, net, ff, elapsedMs);
        Progress([Sent(signature, net.mint)] + rest.records, rest.result, Some(tx))
  }

  /** From checked metadata and its URI on: the prepared record, then `Submit`. */
  function Publish(cfg: Config.Configuration, key: Pubkey, metadata: Entry, uri: string, net: Network, ff: Foreign,
                   elapsedMs: nat): (p: Progress)
    requires |net.polls| >= DefaultMaxRetries
    ensures |p.records| >= 1 && p.records[0] == Prepared(metadata, Truncate(uri))
    ensures p.result.Ok? ==> |p.records| == 3 && p.records[1].Sent? && p.records[2] == p.result.value &&
                             p.result.value.Deployed? && p.sent.Some? && net.send.Ok? &&
                             p.result.value.signature == net.send.value &&
                             p.result.value.metadata == metadata && p.result.value.metadataUri == uri
    ensures p.result.Err? ==> |p.records| <= 2 && (|p.records| == 2 ==> p.records[1].Sent?)
    ensures p.sent.Some? ==> net.blockhash.Ok? && net.rent.Ok? &&
                             p.sent.value == MintTx(key, net.mint, ff.ata(net.mint, key), net.rent.value, net.blockhash.value)
  {
    var rest := Submit(cfg, key, metadata, uri, net, ff, elapsedMs);
    Progress([Prepared(metadata, Truncate(uri))] + rest.records, rest.result, rest.sent)
  }

  /** The steps inside the `try` of `deployNFT`, up to the first failure. */
  function Attempt(cfg: Config.Configuration, payer: Option<Pubkey>, path: string, file: MetadataFile,
                   net: Network, ff: Foreign, elapsedMs: nat): (p: Progress)
    requires |net.polls| >= DefaultMaxRetries
    ensures Prepare(payer, path, file, net, ff).Err? ==> p == Progress([], Err(Prepare(payer, path, file, net, ff).msg), None)
    ensures var pre := Prepare(payer, path, file, net, ff);
            pre.Ok? ==> |p.records| >= 1 &&
                        p.records[0] == Prepared(pre.value.0, Truncate(CreateMetadataUri(cfg, pre.value.0, net.pin, ff.stringify))) &&
                        (p.result.Ok? ==> p.result.value.Deployed? && p.result.value.metadata == pre.value.0 &&
                                          p.result.value.metadataUri == CreateMetadataUri(cfg, pre.value.0, net.pin, ff.stringify))
    ensures p.result.Ok? ==> |p.records| == 3 && p.records[1].Sent? && p.records[2] == p.result.value &&
                             p.result.value.Deployed? && p.sent.Some? && net.send.Ok? &&
                             p.result.value.signature == net.send.value
    ensures p.result.Err? ==> |p.records| <= 2 && (|p.records| == 2 ==> p.records[1].Sent?)
    ensures p.sent.Some? ==> payer.Some? && net.blockhash.Ok? && net.rent.Ok? &&
                             p.sent.value == MintTx(payer.value, net.mint, ff.ata(net.mint, payer.value), net.rent.value, net.blockhash.value)
  {
    match Prepare(payer, path, file, net, ff)
    case Err(msg) => Progress([], Err(msg), None)
    case Ok((metadata, key)) => Publish(cfg, key, metadata, CreateMetadataUri(cfg, metadata, net.pin, ff.stringify), net, ff, elapsedMs)
  }

  /** A whole run of `deployNFT(path)`: any failure in the `try` appends one failure record and rethrows. */
  function Deploy(cfg: Config.Configuration, payer: Option<Pubkey>, path: string, file: MetadataFile,
                  net: Network, ff: Foreign, elapsedMs: nat): (p: Progress)
    requires |net.polls| >= DefaultMaxRetries
    ensures var attempt := Attempt(cfg, payer, path, file, net, ff, elapsedMs);
            p.result == attempt.result && p.sent == attempt.sent &&
            p.records == attempt.records + (if p.result.Err? then [Failed(p.result.msg, path, elapsedMs)] else [])
  {
    var p := Attempt(cfg, payer, path, file, net, ff, elapsedMs);
    if p.result.Err? then p.(records := p.records + [Failed(p.result.msg, path, elapsedMs)])
    else p
  }

  /**
   * The record sequence of every run: prepared, sent and deployed in order on
   * success, returning the last; otherwise the steps reached followed by
   * exactly one failure record carrying the error.
   */
  lemma RecordOrder(cfg: Config.Configuration, payer: Option<Pubkey>, path: string, file: MetadataFile,
                    net: Network, ff: Foreign, elapsedMs: nat)
    requires |net.polls| >= DefaultMaxRetries
    ensures var run := Deploy(cfg, payer, path, file, net, ff, elapsedMs);
            run.result.Ok? ==> |run.records| == 3 && run.records[0].Prepared? && run.records[1].Sent? &&
                               run.records[2] == run.result.value && run.result.value.Deployed?
    ensures var run := Deploy(cfg, payer, path, file, net, ff, elapsedMs);
            run.result.Err? ==> 1 <= |run.records| <= 3 &&
                                run.records[|run.records| - 1] == Failed(run.result.msg, path, elapsedMs) &&
                                (|run.records| >= 2 ==> run.records[0].Prepared?) &&
                                (|run.records| == 3 ==> run.records[1].Sent?)
    ensures var run := Deploy(cfg, payer, path, file, net, ff, elapsedMs);
            var pre := Prepare(payer, path, file, net, ff);
            pre.Ok? ==> run.records[0] == Prepared(pre.value.0, Truncate(CreateMetadataUri(cfg, pre.value.0, net.pin, ff.stringify)))
  {
    var attempt := Attempt(cfg, payer, path, file, net, ff, elapsedMs);
    if Prepare(payer, path, file, net, ff).Err? {
      assert attempt.records == [];
    }
  }

  /** Only the last record of a run can end it. */
  predicate OutcomeLast(records: seq<Record>)
  {
    |records| >= 1 &&
    (records[|records| - 1].Deployed? || records[|records| - 1].Failed?) &&
    forall i :: 0 <= i < |records| - 1 ==> !records[i].Deployed? && !records[i].Failed?
  }

  /** A run of at most three records whose last is its outcome has no outcome record before it. */
  lemma OutcomeOnlyLast(records: seq<Record>)
    requires 1 <= |records| <= 3
    requires records[|records| - 1].Deployed? || records[|records| - 1].Failed?
    requires |records| >= 2 ==> records[0].Prepared?
    requires |records| == 3 ==> records[1].Sent?
    ensures OutcomeLast(records)
  {
  }

  /** The JSON form of a sequence ending in its only outcome record carries the outcome step last and nowhere else. */
  lemma OutcomeLastEntries(records: seq<Record>)
    requires OutcomeLast(records)
    ensures var entries := ToEntries(records);
            (HasStep(entries[|entries| - 1], StepDeployed) <==> records[|records| - 1].Deployed?) &&
            (HasStep(entries[|entries| - 1], StepFailed) <==> records[|records| - 1].Failed?) &&
            forall i :: 0 <= i < |entries| - 1 ==> !HasStep(entries[i], StepDeployed) && !HasStep(entries[i], StepFailed)
  {
    var entries := ToEntries(records);
    forall i | 0 <= i < |records|
      ensures HasStep(entries[i], StepDeployed) <==> records[i].Deployed?
      ensures HasStep(entries[i], StepFailed) <==> records[i].Failed?
    {
      EntryCarriesStep(records[i]);
    }
  }

  /**
   * In the index, a run's last entry is the only one that ends it:
   * `nft_deployed` on success, `deployment_failed` on failure.
   */
  lemma LastEntryEndsRun(cfg: Config.Configuration, payer: Option<Pubkey>, path: string, file: MetadataFile,
                         net: Network, ff: Foreign, elapsedMs: nat)
    requires |net.polls| >= DefaultMaxRetries
    ensures var run := Deploy(cfg, payer, path, file, net, ff, elapsedMs);
            var entries := ToEntries(run.records);
            1 <= |entries| <= 3 &&
            (HasStep(entries[|entries| - 1], StepDeployed) <==> run.result.Ok?) &&
            (HasStep(entries[|entries| - 1], StepFailed) <==> run.result.Err?) &&
            forall i :: 0 <= i < |entries| - 1 ==> !HasStep(entries[i], StepDeployed) && !HasStep(entries[i], StepFailed)
  {
    var run := Deploy(cfg, payer, path, file, net, ff, elapsedMs);
    RunEndsWithOutcome(cfg, payer, path, file, net, ff, elapsedMs);
    OutcomeLastEntries(run.records);
  }

  /** Every run ends in exactly one outcome record: a deployment on success, a failure otherwise. */
  lemma RunEndsWithOutcome(cfg: Config.Configuration, payer: Option<Pubkey>, path: string, file: MetadataFile,
                           net: Network, ff: Foreign, elapsedMs: nat)
    requires |net.polls| >= DefaultMaxRetries
    ensures var run := Deploy(cfg, payer, path, file, net, ff, elapsedMs);
            OutcomeLast(run.records) && |run.records| <= 3 &&
            (run.records[|run.records| - 1].Deployed? <==> run.result.Ok?)
  {
    RecordOrder(cfg, payer, path, file, net, ff, elapsedMs);
    OutcomeOnlyLast(Deploy(cfg, payer, path, file, net, ff, elapsedMs).records);
  }

  /** A failure before the metadata URI is made appends only the failure record and sends nothing. */
  lemma EarlyFailureSendsNothing(cfg: Config.Configuration, payer: Option<Pubkey>, path: string, file: MetadataFile,
                                 net: Network, ff: Foreign, elapsedMs: nat)
    requires |net.polls| >= DefaultMaxRetries
    requires Prepare(payer, path, file, net, ff).Err?
    ensures Deploy(cfg, payer, path, file, net, ff, elapsedMs) ==
            Progress([Failed(Prepare(payer, path, file, net, ff).msg, path, elapsedMs)],
                     Err(Prepare(payer, path, file, net, ff).msg), None)
  {
  }

  /** A balance below 0.01 SOL stops the run before any transaction, whatever the network would answer next. */
  lemma LowBalanceSendsNothing(cfg: Config.Configuration, payer: Pubkey, path: string, metadata: Entry,
                               net: Network, ff: Foreign, elapsedMs: nat)
    requires |net.polls| >= DefaultMaxRetries
    requires ValidateMetadata(metadata, net.head).Ok?
    requires net.balance.Ok? && net.balance.value < MinimumLamports
    ensures var run := Deploy(cfg, Some(payer), path, FileParsed(metadata), net, ff, elapsedMs);
            run.sent.None? && run.records == [Failed(InsufficientMessage(ff.showSol(net.balance.value)), path, elapsedMs)]
  {
    LowBalanceRejected(payer, path, metadata, net, ff);
    EarlyFailureSendsNothing(cfg, Some(payer), path, FileParsed(metadata), net, ff, elapsedMs);
  }

  lemma LowBalanceRejected(payer: Pubkey, path: string, metadata: Entry, net: Network, ff: Foreign)
    requires ValidateMetadata(metadata, net.head).Ok?
    requires net.balance.Ok? && net.balance.value < MinimumLamports
    ensures Prepare(Some(payer), path, FileParsed(metadata), net, ff) == Err(InsufficientMessage(ff.showSol(net.balance.value)))
  {
    BalanceCheckedBeforeProbe(payer, net.balance.value, ff.showSol, net.probe, net.probe);
    BelowMinimumIff(net.balance.value);
    var msg := InsufficientMessage(ff.showSol(net.balance.value));
    assert CheckPrerequisites(Some(payer), net.balance, ff.showSol, net.probe) == Err(msg);
  }

  /**
   * Whatever reaches the network is the NFT mint transaction: four
   * instructions, decimals 0, amount 1, the payer as both authorities and fee
   * payer, signed by the payer and the fresh mint key; and a run succeeds
   * only after sending it.
   */
  lemma SentTransactionShape(cfg: Config.Configuration, payer: Option<Pubkey>, path: string, file: MetadataFile,
                             net: Network, ff: Foreign, elapsedMs: nat)
    requires |net.polls| >= DefaultMaxRetries
    ensures var run := Deploy(cfg, payer, path, file, net, ff, elapsedMs);
            run.sent.Some? ==>
              payer.Some? && net.blockhash.Ok? && net.rent.Ok? &&
              run.sent.value == MintTx(payer.value, net.mint, ff.ata(net.mint, payer.value), net.rent.value, net.blockhash.value) &&
              run.sent.value.signers == [payer.value, net.mint] &&
              FullySigned(run.sent.value.instructions, run.sent.value.signers)
    ensures var run := Deploy(cfg, payer, path, file, net, ff, elapsedMs);
            run.result.Ok? ==> run.sent.Some? && net.send.Ok?
  {
  }

  /** When confirmation times out the run fails with the timeout after the sent record, which names the signature. */
  lemma ConfirmationTimeoutRecorded(cfg: Config.Configuration, payer: Pubkey, path: string, metadata: Entry,
                                    net: Network, ff: Foreign, elapsedMs: nat)
    requires |net.polls| >= DefaultMaxRetries
    requires Prepare(Some(payer), path, FileParsed(metadata), net, ff).Ok?
    requires net.blockhash.Ok? && net.rent.Ok? && net.send.Ok?
    requires forall j :: 0 <= j < DefaultMaxRetries ==> !IsConfirmed(net.polls[j])
    ensures var run := Deploy(cfg, Some(payer), path, FileParsed(metadata), net, ff, elapsedMs);
            run.result == Err(TimeoutMessage) && |run.records| == 3 &&
            run.records[1] == Sent(net.send.value, net.mint) &&
            run.records[2] == Failed(TimeoutMessage, path, elapsedMs)
  {
    var uri := CreateMetadataUri(cfg, metadata, net.pin, ff.stringify);
    SubmitTimesOut(cfg, payer, metadata, uri, net, ff, elapsedMs);
    var attempt := Attempt(cfg, Some(payer), path, FileParsed(metadata), net, ff, elapsedMs);
    assert attempt == Publish(cfg, payer, metadata, uri, net, ff, elapsedMs);
  }

  /** A transaction that is sent but never confirmed leaves the sent record and the timeout. */
  lemma SubmitTimesOut(cfg: Config.Configuration, payer: Pubkey, metadata: Entry, uri: string,
                       net: Network, ff: Foreign, elapsedMs: nat)
    requires |net.polls| >= DefaultMaxRetries
    requires net.blockhash.Ok? && net.rent.Ok? && net.send.Ok?
    requires forall j :: 0 <= j < DefaultMaxRetries ==> !IsConfirmed(net.polls[j])
    ensures var submit := Submit(cfg, payer, metadata, uri, net, ff, elapsedMs);
            submit.records == [Sent(net.send.value, net.mint)] && submit.result == Err(TimeoutMessage)
  {
    NeverConfirmedTimesOut(net.polls, DefaultMaxRetries);
  }

  /**
   * The success record names the submitted signature, and its explorer link
   * is the transaction link for that signature on the encoded RPC URL (which
   * `Explorer.ParseLink` reads back).
   */
  lemma DeployedExplorerLink(cfg: Config.Configuration, payer: Option<Pubkey>, path: string, file: MetadataFile,
                             net: Network, ff: Foreign, elapsedMs: nat)
    requires |net.polls| >= DefaultMaxRetries
    ensures var run := Deploy(cfg, payer, path, file, net, ff, elapsedMs);
            run.result.Ok? ==>
              net.send.Ok? && run.result.value.Deployed? && run.result.value.signature == net.send.value &&
              run.result.value.mint == net.mint &&
              run.result.value.explorer == Explorer.ExplorerLink(Explorer.Tx, net.send.value, ff.encodeUri(cfg.rpcUrl))
  {
  }

  /** When loading, validation or the prerequisite check fails, the attempt appends nothing. */
  lemma NothingPrepared(cfg: Config.Configuration, payer: Option<Pubkey>, path: string, file: MetadataFile,
                        net: Network, ff: Foreign, elapsedMs: nat)
    requires |net.polls| >= DefaultMaxRetries
    requires Prepare(payer, path, file, net, ff).Err?
    ensures Attempt(cfg, payer, path, file, net, ff, elapsedMs) == Progress([], Err(Prepare(payer, path, file, net, ff).msg), None)
  {
  }

  // ---- The deployer object ----

  /** `new Connection(rpcUrl, {commitment, ...})`. */
  datatype Connection = Connection(endpoint: string, commitment: string)

  const InitFailedPrefix := "Failed to initialize deployer: "

  class NFTDeployer {
    const config: Config.Configuration
    /** The deployment index file at `config.deploymentIndex`. */
    const index: DeploymentIndex
    var connection: Option<Connection>
    var payer: Option<Pubkey>

    constructor (config: Config.Configuration, index: DeploymentIndex)
      ensures this.config == config && this.index == index
      ensures connection == None && payer == None
    {
      this.config := config;
      this.index := index;
      connection := None;
      payer := None;
    }

    /**
     * `initialize()`: `keypairExists` answers the existence check of
     * `config.validate()`, `keypair` is the public key read from the file
     * or the reason reading it failed.
     */
    method Initialize(keypairExists: bool, keypair: Result<Pubkey>) returns (r: Result<Pubkey>)
      modifies this
      ensures r.Err? ==> connection == old(connection) && payer == old(payer)
      ensures r.Err? && !keypairExists ==> r.msg == InitFailedPrefix + Config.Validate(config, false).msg
      ensures r.Err? && keypairExists ==> keypair.Err? && r.msg == InitFailedPrefix + keypair.msg
      ensures r.Ok? <==> keypairExists && keypair.Ok?
      ensures r.Ok? ==> r.value == keypair.value && payer == Some(keypair.value) &&
                        connection == Some(Connection(config.rpcUrl, config.commitment))
    {
      var valid := Config.Validate(config, keypairExists);
      if valid.Err? {
        return Err(InitFailedPrefix + valid.msg);
      }
      if keypair.Err? {
        return Err(InitFailedPrefix + keypair.msg);
      }
      payer := Some(keypair.value);
      connection := Some(Connection(config.rpcUrl, config.commitment));
      return Ok(keypair.value);
    }

    /**
     * `confirmTransaction(signature, maxRetries)`: the i-th status query gets
     * `polls[i]`. An `err` payload is thrown inside the loop's `try` and
     * caught by its own `catch`, so like a failed query it only spends an
     * attempt.
     */
    method ConfirmTransaction(polls: seq<PollOutcome>, maxRetries: int) returns (p: Poll)
      requires maxRetries <= |polls|
      ensures p == Confirm(polls, maxRetries)
    {
      var queries, waits := 0, 0;
      var i := 0;
      while i < maxRetries
        invariant 0 <= i <= Attempts(maxRetries)
        invariant forall j :: 0 <= j < i ==> !IsConfirmed(polls[j])
        invariant queries == i
        invariant waits == if i == 0 then 0 else if i < maxRetries then i else i - 1
      {
        var response := polls[i];
        queries := queries + 1;
        if IsConfirmed(response) {
          PendingThenConfirmed(polls, maxRetries, i);
          return Poll(Ok(response.value), queries, waits);
        }
        if i < maxRetries - 1 {
          waits := waits + 1;
        }
        i := i + 1;
      }
      if maxRetries > 0 {
        NeverConfirmedTimesOut(polls, maxRetries);
      }
      return Poll(Err(TimeoutMessage), queries, waits);
    }

    /** The body of the `try` in `deployNFT`: the steps up to the first failure, each record appended as it is made. */
    method TryDeploy(path: string, file: MetadataFile, net: Network, ff: Foreign, elapsedMs: nat, stamps: seq<string>)
      returns (r: Result<Record>, sent: Option<SignedTx>, appended: nat)
      requires |net.polls| >= DefaultMaxRetries && |stamps| >= 3
      modifies index
      ensures var run := Attempt(config, payer, path, file, net, ff, elapsedMs);
              r == run.result && sent == run.sent && appended == |run.records| &&
              index.Entries() == old(index.Entries()) + Written(run.records, stamps) &&
              (appended == 0 ==> index.file == old(index.file)) &&
              (appended > 0 ==> index.file.Some?)
    {
      var prep := Prepare(payer, path, file, net, ff);
      if prep.Err? {
        assert old(index.Entries()) + [] == old(index.Entries());
        return Err(prep.msg), None, 0;
      }
      var metadata, key := prep.value.0, prep.value.1;
      var uri := CreateMetadataUri(config, metadata, net.pin, ff.stringify);
      r, sent, appended := PublishAndRecord(key, metadata, uri, net, ff, elapsedMs, stamps);
    }

    /** From checked metadata and its URI on: record them, then submit and confirm. */
    method PublishAndRecord(key: Pubkey, metadata: Entry, uri: string, net: Network, ff: Foreign, elapsedMs: nat, stamps: seq<string>)
      returns (r: Result<Record>, sent: Option<SignedTx>, appended: nat)
      requires |net.polls| >= DefaultMaxRetries && |stamps| >= 3
      modifies index
      ensures var run := Publish(config, key, metadata, uri, net, ff, elapsedMs);
              r == run.result && sent == run.sent && appended == |run.records| &&
              index.Entries() == old(index.Entries()) + Written(run.records, stamps) &&
              index.file.Some?
    {
      var prepared := Prepared(metadata, Truncate(uri));
      ghost var sub := Submit(config, key, metadata, uri, net, ff, elapsedMs);
      ghost var before := index.Entries();
      ghost var first := Stamp(ToEntry(prepared), stamps[0]);
      index.Append(ToEntry(prepared), stamps[0]);
      var rest;
      r, sent, rest := SubmitAndRecord(key, metadata, uri, net, ff, elapsedMs, stamps[1..]);
      WrittenCons(prepared, sub.records, stamps);
      AppendAssoc(before, [first], Written(sub.records, stamps[1..]));
      appended := rest + 1;
    }

    /** From the prepared metadata on: build, sign and send the transaction, confirm it, and record each step. */
    method SubmitAndRecord(key: Pubkey, metadata: Entry, uri: string, net: Network, ff: Foreign, elapsedMs: nat,
                           stamps: seq<string>)
      returns (r: Result<Record>, sent: Option<SignedTx>, appended: nat)
      requires |net.polls| >= DefaultMaxRetries && |stamps| >= 2
      requires index.file.Some?
      modifies index
      ensures var run := Submit(config, key, metadata, uri, net, ff, elapsedMs);
              r == run.result && sent == run.sent && appended == |run.records| &&
              index.file.Some? && index.Entries() == old(index.Entries()) + Written(run.records, stamps)
    {
      assert index.Entries() + [] == index.Entries();
      var ata := ff.ata(net.mint, key);
      if net.blockhash.Err? {
        return Err(net.blockhash.msg), None, 0;
      }
      if net.rent.Err? {
        return Err(net.rent.msg), None, 0;
      }
      var tx := BuildMintTransaction(key, net.mint, ata, net.rent.value, net.blockhash.value);
      var signed := tx.Snapshot();
      if net.send.Err? {
        return Err(net.send.msg), Some(signed), 0;
      }
      var signature := net.send.value;
      var sentRecord := Sent(signature, net.mint);
      index.Append(ToEntry(sentRecord), stamps[0]);
      ghost var first := Stamp(ToEntry(sentRecord), stamps[0]);
      ghost var rest := Complete(config, metadata, uri, net.mint, ata, signature, net, ff, elapsedMs);
      r := ConfirmAndRecord(metadata, uri, net.mint, ata, signature, net, ff, elapsedMs, stamps[1]);
      sent := Some(signed);
      WrittenCons(sentRecord, rest.records, stamps);
      if r.Err? {
        assert [first] + [] == [first];
        appended := 1;
      } else {
        ghost var last := Stamp(ToEntry(r.value), stamps[1]);
        WrittenCons(r.value, [], stamps[1..]);
        assert [last] + [] == [last];
        AppendAssoc(old(index.Entries()), [first], [last]);
        appended := 2;
      }
    }

    /** Polls for the confirmation and, once confirmed, appends the deployment record stamped `stamp`. */
    method ConfirmAndRecord(metadata: Entry, uri: string, mint: Pubkey, ata: Pubkey, signature: string,
                            net: Network, ff: Foreign, elapsedMs: nat, stamp: string)
      returns (r: Result<Record>)
      requires |net.polls| >= DefaultMaxRetries
      requires index.file.Some?
      modifies index
      ensures var run := Complete(config, metadata, uri, mint, ata, signature, net, ff, elapsedMs);
              r == run.result &&
              index.file.Some? && index.Entries() == old(index.Entries()) + (if r.Ok? then [Stamp(ToEntry(r.value), stamp)] else [])
    {
      var status := ConfirmTransaction(net.polls, DefaultMaxRetries);
      if status.result.Err? {
        assert index.Entries() + [] == index.Entries();
        return Err(status.result.msg);
      }
      var deployed := DeployedRecord(config, metadata, uri, mint, ata, signature, status.result.value,
                                     elapsedMs, ff.encodeUri);
      index.Append(ToEntry(deployed), stamp);
      return Ok(deployed);
    }

    /**
     * `deployNFT(path)`: the records of the run are appended to the index in
     * order as JSON objects, the k-th stamped with the clock reading
     * `stamps[k]`; a failure appends its record last and is rethrown.
     */
    method DeployNFT(path: string, file: MetadataFile, net: Network, ff: Foreign, elapsedMs: nat, stamps: seq<string>)
      returns (r: Result<Record>)
      requires |net.polls| >= DefaultMaxRetries && |stamps| >= 3
      modifies index
      ensures r == Deploy(config, payer, path, file, net, ff, elapsedMs).result
      ensures index.file.Some?
      ensures index.Entries() == old(index.Entries()) + Written(Deploy(config, payer, path, file, net, ff, elapsedMs).records, stamps)
    {
      ghost var attempt := Attempt(config, payer, path, file, net, ff, elapsedMs);
      ghost var run := Deploy(config, payer, path, file, net, ff, elapsedMs);
      var sent, appended;
      r, sent, appended := TryDeploy(path, file, net, ff, elapsedMs, stamps);
      if r.Err? {
        ghost var tried := index.Entries();
        var failed := Failed(r.msg, path, elapsedMs);
        index.Append(ToEntry(failed), stamps[appended]);
        assert run.records == attempt.records + [failed];
        WrittenSnoc(attempt.records, failed, stamps);
        AppendAssoc(old(index.Entries()), Written(attempt.records, stamps), [Stamp(ToEntry(failed), stamps[appended])]);
      } else {
        assert run.records == attempt.records;
      }
    }
  }
}
