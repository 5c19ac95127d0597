/** Solana accounts as the adapters see them, and the SPL token account layout. */
module Accounts {
  import opened Wrappers
  import opened MachineInts
  import opened Bytes

  datatype Account = Account(owner: Pubkey, data: seq<u8>)

  type Accounts = map<Pubkey, Account>

  /** An address nobody has written to is an empty account of the System program. */
  function Lookup(accounts: Accounts, key: Pubkey): Account {
    if key in accounts then accounts[key] else Account(DEFAULT_KEY, [])
  }

  /**
   A protocol the model does not see into: given the data of the instruction it is invoked with, it
   either fails or leaves arbitrary account contents behind.
   */
  type Protocol = seq<u8> -> Option<Accounts>

  datatype AdapterConfig = AdapterConfig(
    authority: Pubkey,
    supportedMint: Pubkey,
    protocolProgramId: Pubkey,
    version: u16,
    bump: u8
  )

  const TOKEN_ACCOUNT_MINT_OFFSET := 0
  const TOKEN_ACCOUNT_OWNER_OFFSET := 32
  const TOKEN_ACCOUNT_AMOUNT_OFFSET := 64

  function ReadTokenAmount<E>(token: Account, short: E): Result<u64, E> {
    ReadU64(token.data, TOKEN_ACCOUNT_AMOUNT_OFFSET).OkOr(short)
  }

  /** The mint and holder recorded in a token account's data. */
  function CheckTokenData<E>(token: Account, mint: Pubkey, holder: Pubkey, short: E, invalid: E): Result<(), E> {
    if |token.data| < TOKEN_ACCOUNT_MINT_OFFSET + 32 then Err(short)
    else if !KeyIs(token.data, TOKEN_ACCOUNT_MINT_OFFSET, mint) then Err(invalid)
    else if |token.data| < TOKEN_ACCOUNT_OWNER_OFFSET + 32 then Err(short)
    else if !KeyIs(token.data, TOKEN_ACCOUNT_OWNER_OFFSET, holder) then Err(invalid)
    else Ok(())
  }

  /** As above, for an account that must also belong to the token program passed in. */
  function CheckTokenAccount<E>(token: Account, tokenProgram: Pubkey, mint: Pubkey, holder: Pubkey,
                                short: E, invalid: E): Result<(), E> {
    if token.owner != tokenProgram then Err(invalid)
    else CheckTokenData(token, mint, holder, short, invalid)
  }

  /** What token account data must say: the mint in the first 32 bytes, the holder in the next 32. */
  predicate Records(data: seq<u8>, mint: Pubkey, holder: Pubkey) {
    64 <= |data| && data[..32] == mint && data[32..64] == holder
  }

  /** The data ends before the first field that could be wrong. */
  predicate EndsEarly(data: seq<u8>, mint: Pubkey) {
    |data| < 32 || (|data| < 64 && data[..32] == mint)
  }

  lemma NotBoth(data: seq<u8>, mint: Pubkey, holder: Pubkey)
    ensures !(Records(data, mint, holder) && EndsEarly(data, mint))
  {}

  lemma TokenDataExact<E(!new)>(token: Account, mint: Pubkey, holder: Pubkey, short: E, invalid: E)
    ensures CheckTokenData(token, mint, holder, short, invalid) ==
            if Records(token.data, mint, holder) then Ok(())
            else if EndsEarly(token.data, mint) then Err(short) else Err(invalid)
  {
    if 32 <= |token.data| {
      assert token.data[0..32] == token.data[..32];
    }
  }

  lemma TokenAccountExact<E(!new)>(token: Account, program: Pubkey, mint: Pubkey, holder: Pubkey, short: E, invalid: E)
    ensures CheckTokenAccount(token, program, mint, holder, short, invalid) ==
            if token.owner == program && Records(token.data, mint, holder) then Ok(())
            else if token.owner == program && EndsEarly(token.data, mint) then Err(short) else Err(invalid)
  {
    TokenDataExact(token, mint, holder, short, invalid);
  }

  /** An absent account belongs to the System program and records nothing, so no token check accepts it. */
  lemma AbsentAccount(accounts: Accounts, key: Pubkey, mint: Pubkey, holder: Pubkey)
    requires key !in accounts
    ensures Lookup(accounts, key).owner == DEFAULT_KEY && !Records(Lookup(accounts, key).data, mint, holder)
    ensures forall offset, width | 0 < width :: Slice(Lookup(accounts, key).data, offset, width).None?
  {}

  /** The balance follows mint and holder. */
  lemma EncodedTokenAmount<E(!new)>(mint: Pubkey, holder: Pubkey, amount: u64, tail: seq<u8>, owner: Pubkey, short: E)
    ensures var data := mint + holder + LeBytes64(amount) + tail;
            && Records(data, mint, holder)
            && ReadTokenAmount(Account(owner, data), short) == Ok(amount)
            && forall cut | 0 <= cut < 72 :: ReadTokenAmount(Account(owner, data[..cut]), short) == Err(short)
  {
    hide LeValue, LeBytes64, Pow256;
    var data := mint + holder + LeBytes64(amount) + tail;
    AppendedField(mint + holder, LeBytes64(amount), data);
  }
}
