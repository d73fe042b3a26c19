/**
 * The NFT viewer: it picks the latest successful deployment from the index
 * and prints its details and its block-explorer links. The account and
 * image checks it makes afterwards are network calls and are not modelled.
 */
module Viewer {
  import opened Wrappers
  import opened JsonValue
  import opened Seqs
  import opened Ledger
  import opened Explorer
  import Api
  import Deployer
  import Config

  /** `entry.step === 'nft_deployed' && entry.success`. */
  predicate IsSuccessfulDeployment(entry: Entry)
  {
    HasStep(entry, StepDeployed) && Truthy(Get(entry, "success"))
  }

  /** `index.filter(IsSuccessfulDeployment).pop()`. */
  function SelectLatest(index: seq<Entry>): (r: Option<Entry>)
    ensures r.Some? ==> r.value in index && IsSuccessfulDeployment(r.value)
  {
    Last(Filter(index, IsSuccessfulDeployment))
  }

  /** The selection is the last successful deployment, and there is none exactly when no entry is one. */
  lemma SelectLatestIsLast(index: seq<Entry>)
    ensures SelectLatest(index).None? <==> forall i :: 0 <= i < |index| ==> !IsSuccessfulDeployment(index[i])
    ensures SelectLatest(index).Some? ==>
              exists i :: 0 <= i < |index| && index[i] == SelectLatest(index).value && IsSuccessfulDeployment(index[i]) &&
                          forall j :: i < j < |index| ==> !IsSuccessfulDeployment(index[j])
  {
    LastOfFilter(index, IsSuccessfulDeployment);
  }

  /** The index as the viewer reads it: reading, parsing or filtering threw, or it is an array. */
  datatype IndexRead = ReadFailed(message: string) | Read(entries: seq<Entry>)

  /** The five links the viewer prints. */
  datatype Links = Links(txExplorer: string, txSolanaFm: string, mintExplorer: string, mintSolanaFm: string,
                         tokenExplorer: string)

  /** How a run of the viewer ends, up to the network checks. */
  datatype View =
    | IndexUnreadable(message: string)         // reported; returns before any network call
    | NoneFound                                // reported; returns before any network call
    | Crashed                                  // `deploymentData.metadata.name` threw: no metadata object
    | Shown(deployment: Entry, links: Links)

  /**
   * The links for a deployment, with each field rendered as a template
   * literal renders it. Each printed link reads back as the kind and the id
   * it was made for, with the RPC URL encoded in the Solana Explorer links
   * and raw in the SolanaFM links, as long as the id holds no '?'.
   */
  function LinksFor(deployment: Entry, encodeUri: string -> string): (links: Links)
    ensures var signature := Text(Get(deployment, "signature"));
            var rpcUrl := Text(Get(deployment, "rpcUrl"));
            '?' !in signature ==>
              && ParseLink(ExplorerBase, ExplorerQuery, links.txExplorer) == Some(Link(Tx, signature, encodeUri(rpcUrl)))
              && ParseLink(SolanaFmBase, SolanaFmQuery, links.txSolanaFm) == Some(Link(Tx, signature, rpcUrl))
    ensures var mint := Text(Get(deployment, "mint"));
            var rpcUrl := Text(Get(deployment, "rpcUrl"));
            '?' !in mint ==>
              && ParseLink(ExplorerBase, ExplorerQuery, links.mintExplorer) == Some(Link(Address, mint, encodeUri(rpcUrl)))
              && ParseLink(SolanaFmBase, SolanaFmQuery, links.mintSolanaFm) == Some(Link(Address, mint, rpcUrl))
    ensures var tokenAccount := Text(Get(deployment, "tokenAccount"));
            var rpcUrl := Text(Get(deployment, "rpcUrl"));
            '?' !in tokenAccount ==>
              ParseLink(ExplorerBase, ExplorerQuery, links.tokenExplorer) == Some(Link(Address, tokenAccount, encodeUri(rpcUrl)))
  {
    var signature := Text(Get(deployment, "signature"));
    var mint := Text(Get(deployment, "mint"));
    var tokenAccount := Text(Get(deployment, "tokenAccount"));
    var rpcUrl := Text(Get(deployment, "rpcUrl"));
    var encodedRpc := encodeUri(rpcUrl);
    Links(ExplorerLink(Tx, signature, encodedRpc), SolanaFmLink(Tx, signature, rpcUrl),
          ExplorerLink(Address, mint, encodedRpc), SolanaFmLink(Address, mint, rpcUrl),
          ExplorerLink(Address, tokenAccount, encodedRpc))
  }

  /** `viewNFT()` up to the account checks; `encodeUri` is `encodeURIComponent`. */
  function ViewNFT(read: IndexRead, encodeUri: string -> string): (r: View)
    ensures r.IndexUnreadable? <==> read.ReadFailed?
    ensures r.NoneFound? <==> read.Read? && SelectLatest(read.entries).None?
    ensures r.Crashed? <==> (read.Read? && SelectLatest(read.entries).Some? &&
                             Get(SelectLatest(read.entries).value, "metadata") in {None, Some(JNull)})
    ensures r.Shown? ==> read.Read? && Some(r.deployment) == SelectLatest(read.entries) &&
                         r.links == LinksFor(r.deployment, encodeUri)
  {
    match read
    case ReadFailed(message) => IndexUnreadable(message)
    case Read(entries) =>
      match SelectLatest(entries)
      case None => NoneFound
      case Some(deployment) =>
        if Get(deployment, "metadata") in {None, Some(JNull)} then Crashed
        else Shown(deployment, LinksFor(deployment, encodeUri))
  }

  /**
   * Once the deployer has appended a deployment entry, the viewer shows
   * that entry, whatever came before it, and its transaction link is the
   * `explorer` link stored in the entry.
   */
  lemma DeployedEntryShown(cfg: Config.Configuration, metadata: Entry, uri: string, mint: string, ata: string,
                           signature: string, status: Json, elapsedMs: nat, encodeUri: string -> string,
                           timestamp: string, before: seq<Entry>)
    ensures var record := Deployer.DeployedRecord(cfg, metadata, uri, mint, ata, signature, status, elapsedMs, encodeUri);
            var entry := Stamp(Deployer.ToEntry(record), timestamp);
            ViewNFT(Read(before + [entry]), encodeUri) == Shown(entry, LinksFor(entry, encodeUri)) &&
            LinksFor(entry, encodeUri).txExplorer == record.explorer &&
            Get(entry, "explorer") == Some(JStr(record.explorer))
  {
    var record := Deployer.DeployedRecord(cfg, metadata, uri, mint, ata, signature, status, elapsedMs, encodeUri);
    var entry := Stamp(Deployer.ToEntry(record), timestamp);
    StampedDeployedFields(record, timestamp);
    LastSuccessfulShown(before, entry, encodeUri);
    StoredTxLink(entry, record.signature, record.rpcUrl, encodeUri);
  }

  /** An appended successful deployment with a metadata object is the one shown. */
  lemma LastSuccessfulShown(before: seq<Entry>, entry: Entry, encodeUri: string -> string)
    requires IsSuccessfulDeployment(entry) && Get(entry, "metadata") !in {None, Some(JNull)}
    ensures ViewNFT(Read(before + [entry]), encodeUri) == Shown(entry, LinksFor(entry, encodeUri))
  {
    FilterSnoc(before, entry, IsSuccessfulDeployment);
  }

  /** An entry storing a signature and an RPC URL prints the Explorer link of that signature on the encoded URL. */
  lemma StoredTxLink(entry: Entry, signature: string, rpcUrl: string, encodeUri: string -> string)
    requires Get(entry, "signature") == Some(JStr(signature)) && Get(entry, "rpcUrl") == Some(JStr(rpcUrl))
    ensures LinksFor(entry, encodeUri).txExplorer == ExplorerLink(Tx, signature, encodeUri(rpcUrl))
  {
  }

  /** The fields of a stamped deployment entry that the viewer reads. */
  lemma StampedDeployedFields(record: Deployer.Record, timestamp: string)
    requires record.Deployed?
    ensures var entry := Stamp(Deployer.ToEntry(record), timestamp);
            IsSuccessfulDeployment(entry) &&
            Get(entry, "signature") == Some(JStr(record.signature)) &&
            Get(entry, "rpcUrl") == Some(JStr(record.rpcUrl)) &&
            Get(entry, "metadata") == Some(JObj(record.metadata)) &&
            Get(entry, "explorer") == Some(JStr(record.explorer))
  {
    var fields := Deployer.ToEntry(record);
    Deployer.EntryCarriesStep(record);
    StampFields(fields, timestamp);
    assert "signature" !in Deployer.ImageUrlField(record.metadata);
    assert "rpcUrl" !in Deployer.ImageUrlField(record.metadata);
    assert "metadata" !in Deployer.ImageUrlField(record.metadata);
  }

  /** Every `nft_deployed` entry has a truthy `success` flag. */
  ghost predicate SuccessMarked(index: seq<Entry>)
  {
    forall i :: 0 <= i < |index| && HasStep(index[i], StepDeployed) ==> Truthy(Get(index[i], "success"))
  }

  /** The deployer marks every deployment it writes as successful, so appending a run keeps the mark. */
  lemma DeployerMarksSuccess(before: seq<Entry>, records: seq<Deployer.Record>, stamps: seq<string>)
    requires SuccessMarked(before) && |records| <= |stamps|
    ensures SuccessMarked(before + Deployer.Written(records, stamps))
  {
    var written := Deployer.Written(records, stamps);
    Deployer.WrittenAt(records, stamps);
    Deployer.WrittenSteps(records, stamps);
    forall i | 0 <= i < |written| && HasStep(written[i], StepDeployed)
      ensures Truthy(Get(written[i], "success"))
    {
      Deployer.StepIdentifies(records[i]);
      Deployer.EntryCarriesStep(records[i]);
      StampFields(Deployer.ToEntry(records[i]), stamps[i]);
    }
    var after := before + written;
    forall i | 0 <= i < |after| && HasStep(after[i], StepDeployed)
      ensures Truthy(Get(after[i], "success"))
    {
      if i >= |before| {
        assert after[i] == written[i - |before|];
      }
    }
  }

  /**
   * On an index where every deployment is marked successful (as the
   * deployer writes it), the viewer selects the same entry that
   * `/api/deployments/latest` answers with; the two differ only on entries
   * with a falsy `success`, which the API does not consult.
   */
  lemma ViewerAgreesWithApi(index: seq<Entry>)
    requires SuccessMarked(index)
    ensures SelectLatest(index).None? <==> Api.LatestDeployment(Api.Present(index)).NotFound?
    ensures SelectLatest(index).Some? ==> Api.LatestDeployment(Api.Present(index)) == Api.Success(SelectLatest(index).value)
  {
    FilterAgree(index, IsSuccessfulDeployment, Api.WithStep(StepDeployed));
  }
}
