/**
 * The mint transaction: four instruction records added one by one to a
 * transaction object, then stamped with a block hash and a fee payer and
 * signed. The instruction encodings belong to the Solana SDK and are not
 * modelled; each instruction is kept as the arguments the script passes.
 * A small abstract semantics of the four instructions (what the System and
 * SPL Token programs do with them) serves as the reference the composed
 * list is proved against.
 */
module MintTransaction {
  import opened Wrappers

  /** A public key, as its base58 text. */
  type Pubkey = string

  const TokenProgramId: Pubkey := "TokenkegQfeZyiNwAJbNbGKPFXCWuBvf9Ss623VQ5DA"
  /** `MINT_SIZE`: the byte length of an SPL Token mint account. */
  const MintSize := 82

  datatype Instruction =
    | CreateAccount(from: Pubkey, newAccount: Pubkey, space: nat, lamports: int, programId: Pubkey)
    | InitializeMint(mint: Pubkey, decimals: nat, mintAuthority: Pubkey, freezeAuthority: Option<Pubkey>)
    | CreateAssociatedTokenAccount(payer: Pubkey, associatedToken: Pubkey, owner: Pubkey, mint: Pubkey)
    | MintTo(mint: Pubkey, destination: Pubkey, authority: Pubkey, amount: nat)

  /** The accounts whose signatures the instruction requires. */
  function RequiredSigners(ix: Instruction): set<Pubkey>
  {
    match ix
    case CreateAccount(from, newAccount, _, _, _) => {from, newAccount}
    case InitializeMint(_, _, _, _) => {}
    case CreateAssociatedTokenAccount(payer, _, _, _) => {payer}
    case MintTo(_, _, authority, _) => {authority}
  }

  /** The four instructions of `deployNFT`, in order. */
  function MintInstructions(payer: Pubkey, mint: Pubkey, ata: Pubkey, rent: int): (ixs: seq<Instruction>)
    ensures |ixs| == 4
  {
    [CreateAccount(payer, mint, MintSize, rent, TokenProgramId),
     InitializeMint(mint, 0, payer, Some(payer)),
     CreateAssociatedTokenAccount(payer, ata, payer, mint),
     MintTo(mint, ata, payer, 1)]
  }

  /** What a transaction holds once it has been signed. */
  datatype SignedTx = SignedTx(instructions: seq<Instruction>, recentBlockhash: string, feePayer: Pubkey, signers: seq<Pubkey>)

  /** Every signature any instruction requires is among the transaction's signers. */
  predicate FullySigned(instructions: seq<Instruction>, signers: seq<Pubkey>)
  {
    forall i :: 0 <= i < |instructions| ==> RequiredSigners(instructions[i]) <= set k | k in signers
  }

  class Transaction {
    var instructions: seq<Instruction>
    var recentBlockhash: Option<string>
    var feePayer: Option<Pubkey>
    var signers: seq<Pubkey>

    constructor ()
      ensures instructions == [] && recentBlockhash == None && feePayer == None && signers == []
    {
      instructions, recentBlockhash, feePayer, signers := [], None, None, [];
    }

    /** `transaction.add(ix)`. */
    method Add(ix: Instruction)
      modifies this
      ensures instructions == old(instructions) + [ix]
      ensures recentBlockhash == old(recentBlockhash) && feePayer == old(feePayer) && signers == old(signers)
    {
      instructions := instructions + [ix];
    }

    /** `transaction.sign(...keypairs)`: the signers are exactly the given keypairs. */
    method Sign(keys: seq<Pubkey>)
      modifies this
      ensures signers == keys
      ensures instructions == old(instructions) && recentBlockhash == old(recentBlockhash) && feePayer == old(feePayer)
    {
      signers := keys;
    }

    function Snapshot(): SignedTx
      reads this
      requires recentBlockhash.Some? && feePayer.Some?
    {
      SignedTx(instructions, recentBlockhash.value, feePayer.value, signers)
    }
  }

  /** The transaction `deployNFT` signs, as a value. */
  function MintTx(payer: Pubkey, mint: Pubkey, ata: Pubkey, rent: int, blockhash: string): (tx: SignedTx)
    ensures FullySigned(tx.instructions, tx.signers)
    ensures tx.feePayer == payer && |tx.signers| == 2
  {
    var tx := SignedTx(MintInstructions(payer, mint, ata, rent), blockhash, payer, [payer, mint]);
    assert forall i :: 0 <= i < 4 ==> RequiredSigners(tx.instructions[i]) <= {payer, mint};
    tx
  }

  /** Builds the transaction step by step, as lines 216-264 of the script do. */
  method BuildMintTransaction(payer: Pubkey, mint: Pubkey, ata: Pubkey, rent: int, blockhash: string)
    returns (tx: Transaction)
    ensures fresh(tx)
    ensures tx.recentBlockhash.Some? && tx.feePayer.Some?
    ensures tx.Snapshot() == MintTx(payer, mint, ata, rent, blockhash)
  {
    tx := new Transaction();
    tx.Add(CreateAccount(payer, mint, MintSize, rent, TokenProgramId));
    tx.Add(InitializeMint(mint, 0, payer, Some(payer)));
    tx.Add(CreateAssociatedTokenAccount(payer, ata, payer, mint));
    tx.Add(MintTo(mint, ata, payer, 1));
    tx.recentBlockhash := Some(blockhash);
    tx.feePayer := Some(payer);
    tx.Sign([payer, mint]);
  }

  // ---- Reference semantics of the four instructions ----

  datatype Account =
    | Allocated(programId: Pubkey, space: nat, lamports: int)
    | Mint(decimals: nat, supply: nat, mintAuthority: Option<Pubkey>, freezeAuthority: Option<Pubkey>)
    | TokenAccount(mint: Pubkey, owner: Pubkey, amount: nat)

  type Accounts = map<Pubkey, Account>

  /** One instruction's effect on the accounts it touches; `None` when the program would reject it. */
  function Execute(ix: Instruction, s: Accounts): Option<Accounts>
  {
    match ix
    case CreateAccount(_, newAccount, space, lamports, programId) =>
      if newAccount in s then None else Some(s[newAccount := Allocated(programId, space, lamports)])
    case InitializeMint(mint, decimals, mintAuthority, freezeAuthority) =>
      if mint in s && s[mint].Allocated? && s[mint].programId == TokenProgramId && s[mint].space == MintSize
      then Some(s[mint := Mint(decimals, 0, Some(mintAuthority), freezeAuthority)])
      else None
    case CreateAssociatedTokenAccount(_, ata, owner, mint) =>
      if ata !in s && mint in s && s[mint].Mint? then Some(s[ata := TokenAccount(mint, owner, 0)]) else None
    case MintTo(mint, destination, authority, amount) =>
      if mint in s && s[mint].Mint? && s[mint].mintAuthority == Some(authority)
         && destination in s && s[destination].TokenAccount? && s[destination].mint == mint && destination != mint
      then
        var m, d := s[mint], s[destination];
        Some(s[mint := m.(supply := m.supply + amount)][destination := d.(amount := d.amount + amount)])
      else None
  }

  /** The instructions in order; the transaction is atomic, so one rejection rejects it all. */
  function ExecuteAll(ixs: seq<Instruction>, s: Accounts): Option<Accounts>
  {
    if ixs == [] then Some(s)
    else match Execute(ixs[0], s)
      case None => None
      case Some(s') => ExecuteAll(ixs[1..], s')
  }

  /**
   * On accounts where neither the mint nor the token account exists yet, the
   * four instructions create a mint with zero decimals and a supply of one,
   * with the payer as mint and freeze authority, and the payer's token
   * account holding that single unit.
   */
  lemma MintTransactionMintsOneUnit(s: Accounts, payer: Pubkey, mint: Pubkey, ata: Pubkey, rent: int)
    requires mint !in s && ata !in s && mint != ata
    ensures ExecuteAll(MintInstructions(payer, mint, ata, rent), s)
         == Some(s[mint := Mint(0, 1, Some(payer), Some(payer))][ata := TokenAccount(mint, payer, 1)])
  {
    var ixs := MintInstructions(payer, mint, ata, rent);
    var s1 := s[mint := Allocated(TokenProgramId, MintSize, rent)];
    var s2 := s[mint := Mint(0, 0, Some(payer), Some(payer))];
    var s3 := s2[ata := TokenAccount(mint, payer, 0)];
    assert Execute(ixs[0], s) == Some(s1);
    assert s1[mint := Mint(0, 0, Some(payer), Some(payer))] == s2;
    assert Execute(ixs[1], s1) == Some(s2);
    assert Execute(ixs[2], s2) == Some(s3);
    var s4 := s3[mint := Mint(0, 1, Some(payer), Some(payer))][ata := TokenAccount(mint, payer, 1)];
    assert Execute(ixs[3], s3) == Some(s4);
    var t1, t2, t3 := ixs[1..], ixs[2..], ixs[3..];
    assert t1[0] == ixs[1] && t1[1..] == t2 && t2[0] == ixs[2] && t2[1..] == t3 && t3[0] == ixs[3] && t3[1..] == [];
    assert ExecuteAll(t3, s3) == Some(s4);
    assert ExecuteAll(t2, s2) == Some(s4);
    assert ExecuteAll(t1, s1) == Some(s4);
    assert s4 == s[mint := Mint(0, 1, Some(payer), Some(payer))][ata := TokenAccount(mint, payer, 1)];
  }

  /** The payer alone cannot sign: creating the mint account needs the new mint keypair's signature too. */
  lemma MintKeypairMustCosign(payer: Pubkey, mint: Pubkey, ata: Pubkey, rent: int)
    requires payer != mint
    ensures !FullySigned(MintInstructions(payer, mint, ata, rent), [payer])
  {
    assert mint in RequiredSigners(MintInstructions(payer, mint, ata, rent)[0]);
  }

  /** A mint account that already exists makes the whole transaction fail. */
  lemma ExistingMintRejected(s: Accounts, payer: Pubkey, mint: Pubkey, ata: Pubkey, rent: int)
    requires mint in s
    ensures ExecuteAll(MintInstructions(payer, mint, ata, rent), s) == None
  {
  }
}
