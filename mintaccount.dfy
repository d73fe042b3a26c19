/**
 * The checks of the transaction verifier that are not network calls: the
 * SPL Token mint account it decodes (82 bytes: a 4-byte option tag and the
 * 32-byte mint authority, the supply as a u64 little-endian at offset 36,
 * the decimals byte at offset 44, the initialised flag, the freeze
 * authority), and the status and ownership labels of the transactions it
 * lists.
 */
module MintAccount {
  import opened Wrappers
  import opened Bytes
  import opened JsonValue
  import opened MintTransaction

  const SupplyOffset := 36
  const DecimalsOffset := 44
  const KeyLength := 32

  /** What the verifier reports about a mint account. */
  datatype MintInfo = MintInfo(supply: nat, decimals: Byte, mintAuthorityPresent: bool)

  /**
   * The mint fields are read only from an account owned by the token program
   * whose data holds at least 82 bytes; the authority counts as present when
   * the option tag's first byte is 1.
   */
  function DecodeMint(owner: Pubkey, data: seq<Byte>): (r: Option<MintInfo>)
    ensures r.Some? <==> owner == TokenProgramId && |data| >= MintSize
    ensures r.Some? ==> r.value.supply < Pow256(8) && r.value.decimals == data[DecimalsOffset] &&
                        (r.value.mintAuthorityPresent <==> data[0] == 1)
  {
    if owner == TokenProgramId && |data| >= MintSize then
      Some(MintInfo(LittleEndian(data[SupplyOffset..SupplyOffset + 8]), data[DecimalsOffset], data[0] == 1))
    else None
  }

  // ---- The layout the token program writes ----

  /** The fields of a mint account; keys are their 32 raw bytes. */
  datatype MintState = MintState(mintAuthority: Option<seq<Byte>>, supply: nat, decimals: Byte,
                                 isInitialized: bool, freezeAuthority: Option<seq<Byte>>)

  predicate WellFormed(m: MintState)
  {
    && m.supply < Pow256(8)
    && (m.mintAuthority.Some? ==> |m.mintAuthority.value| == KeyLength)
    && (m.freezeAuthority.Some? ==> |m.freezeAuthority.value| == KeyLength)
  }

  /** A `COption<Pubkey>`: a u32 little-endian tag (1 when present), then the key or 32 zero bytes. */
  function OptionalKey(key: Option<seq<Byte>>): (b: seq<Byte>)
    requires key.Some? ==> |key.value| == KeyLength
    ensures |b| == 4 + KeyLength
    ensures b[0] == 1 <==> key.Some?
  {
    if key.Some? then [1, 0, 0, 0] + key.value else [0, 0, 0, 0] + seq(KeyLength, _ => 0)
  }

  function EncodeMint(m: MintState): (data: seq<Byte>)
    requires WellFormed(m)
    ensures |data| == MintSize
  {
    OptionalKey(m.mintAuthority) + ToLittleEndian(m.supply, 8) + [m.decimals, if m.isInitialized then 1 else 0]
      + OptionalKey(m.freezeAuthority)
  }

  /** Decoding an account the token program wrote gives back its supply, its decimals and whether it has a mint authority. */
  lemma DecodeEncodeMint(m: MintState)
    requires WellFormed(m)
    ensures DecodeMint(TokenProgramId, EncodeMint(m)) == Some(MintInfo(m.supply, m.decimals, m.mintAuthority.Some?))
  {
    var data := EncodeMint(m);
    var head := OptionalKey(m.mintAuthority);
    assert data[SupplyOffset..SupplyOffset + 8] == ToLittleEndian(m.supply, 8);
    assert data[0] == head[0];
    LittleEndianRoundTrip(m.supply, 8);
  }

  /** Bytes past the 82nd never change what is reported. */
  lemma DecodeIgnoresTail(owner: Pubkey, data: seq<Byte>, tail: seq<Byte>)
    requires |data| >= MintSize
    ensures DecodeMint(owner, data + tail) == DecodeMint(owner, data)
  {
    assert (data + tail)[SupplyOffset..SupplyOffset + 8] == data[SupplyOffset..SupplyOffset + 8];
  }

  /** A mint account of the abstract token semantics, laid out with `keyBytes` giving each key's raw bytes. */
  function StateOf(account: Account, keyBytes: Pubkey -> seq<Byte>): (m: MintState)
    requires account.Mint? && account.decimals < 256 && account.supply < Pow256(8)
    requires forall k :: |keyBytes(k)| == KeyLength
    ensures WellFormed(m)
  {
    MintState(if account.mintAuthority.Some? then Some(keyBytes(account.mintAuthority.value)) else None,
              account.supply, account.decimals, true,
              if account.freezeAuthority.Some? then Some(keyBytes(account.freezeAuthority.value)) else None)
  }

  /**
   * The mint the deployment transaction creates reads back, through the
   * verifier's decode, as a supply of 1 with 0 decimals and a mint authority.
   */
  lemma DeployedMintReadsAsNft(s: Accounts, payer: Pubkey, mint: Pubkey, ata: Pubkey, rent: int,
                               keyBytes: Pubkey -> seq<Byte>)
    requires mint !in s && ata !in s && mint != ata
    requires forall k :: |keyBytes(k)| == KeyLength
    ensures var after := ExecuteAll(MintInstructions(payer, mint, ata, rent), s);
            after.Some? && mint in after.value && after.value[mint] == Mint(0, 1, Some(payer), Some(payer)) &&
            DecodeMint(TokenProgramId, EncodeMint(StateOf(after.value[mint], keyBytes))) == Some(MintInfo(1, 0, true))
  {
    MintTransactionMintsOneUnit(s, payer, mint, ata, rent);
    var account := Mint(0, 1, Some(payer), Some(payer));
    assert Pow256(8) > 1;
    DecodeEncodeMint(StateOf(account, keyBytes));
  }

  // ---- Status and ownership labels ----

  /** `err ? 'Failed' : 'Success'`. */
  function StatusLabel(err: Option<Json>): (status: string)
    ensures status == "Failed" <==> Truthy(err)
    ensures status == "Success" <==> !Truthy(err)
  {
    if Truthy(err) then "Failed" else "Success"
  }

  /** `meta?.err`: undefined when the transaction carries no metadata. */
  function MetaErr(meta: Option<Json>): (err: Option<Json>)
    ensures err.Some? <==> meta.Some? && meta.value.JObj? && "err" in meta.value.fields
    ensures err.Some? ==> err.value == meta.value.fields["err"]
  {
    if meta.Some? then Member(meta.value, "err") else None
  }

  /** A signature-history entry. */
  datatype SignatureInfo = SignatureInfo(signature: string, slot: nat, err: Option<Json>)

  /** One printed line of the history: its 1-based position, the signature, the "our transaction" mark, the status. */
  datatype HistoryLine = HistoryLine(position: nat, signature: string, ours: bool, status: string)

  function History(signatures: seq<SignatureInfo>, target: string): (lines: seq<HistoryLine>)
    ensures |lines| == |signatures|
    ensures forall i :: 0 <= i < |lines| ==>
              lines[i].position == i + 1 && lines[i].signature == signatures[i].signature &&
              (lines[i].ours <==> signatures[i].signature == target) &&
              (lines[i].status == "Failed" <==> Truthy(signatures[i].err))
  {
    seq(|signatures|, i requires 0 <= i < |signatures| =>
      HistoryLine(i + 1, signatures[i].signature, signatures[i].signature == target, StatusLabel(signatures[i].err)))
  }

  /** When the history lists each signature once, at most one line is marked as ours. */
  lemma OursMarkedOnce(signatures: seq<SignatureInfo>, target: string, i: nat, j: nat)
    requires forall a, b :: 0 <= a < b < |signatures| ==> signatures[a].signature != signatures[b].signature
    requires i < |signatures| && j < |signatures|
    requires History(signatures, target)[i].ours && History(signatures, target)[j].ours
    ensures i == j
  {
  }
}
