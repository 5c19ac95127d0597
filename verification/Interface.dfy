/** The instruction interface the dispatcher and every adapter share. */
module Interface {
  import opened Wrappers
  import opened MachineInts
  import opened Bytes

  /** An account of an instruction: its key, and whether it signs and may be written. */
  datatype Meta = Meta(key: Pubkey, isSigner: bool, isWritable: bool)

  datatype Cpi = Cpi(programId: Pubkey, accounts: seq<Meta>, data: seq<u8>)

  datatype Request = Deposit(amount: u64) | Withdraw(amount: u64) | CurrentValue

  const DEPOSIT_IX_DISCRIMINATOR: seq<u8> := [242, 35, 198, 137, 82, 225, 242, 182]
  const WITHDRAW_IX_DISCRIMINATOR: seq<u8> := [183, 18, 70, 156, 148, 109, 161, 34]
  const CURRENT_VALUE_IX_DISCRIMINATOR: seq<u8> := [232, 199, 167, 206, 247, 56, 234, 20]

  function Encode(request: Request): seq<u8> {
    match request
    case Deposit(amount) => DEPOSIT_IX_DISCRIMINATOR + LeBytes64(amount)
    case Withdraw(amount) => WITHDRAW_IX_DISCRIMINATOR + LeBytes64(amount)
    case CurrentValue => CURRENT_VALUE_IX_DISCRIMINATOR
  }

  /** How an adapter reads instruction data: eight bytes choose the handler, its argument follows. */
  function Decode(data: seq<u8>): Option<Request> {
    var discriminator :- Slice(data, 0, 8);
    if discriminator == DEPOSIT_IX_DISCRIMINATOR then
      var amount :- ReadU64(data, 8);
      Some(Deposit(amount))
    else if discriminator == WITHDRAW_IX_DISCRIMINATOR then
      var amount :- ReadU64(data, 8);
      Some(Withdraw(amount))
    else if discriminator == CURRENT_VALUE_IX_DISCRIMINATOR then Some(CurrentValue)
    else None
  }

  /** The bytes themselves: eight that choose the handler, then the amount, if there is one. */
  lemma RequestBytes(request: Request)
    ensures var data := Encode(request);
            match request
            case Deposit(amount) =>
              && |data| == 16 && data[..8] == [242, 35, 198, 137, 82, 225, 242, 182] && ReadU64(data, 8) == Some(amount)
            case Withdraw(amount) =>
              && |data| == 16 && data[..8] == [183, 18, 70, 156, 148, 109, 161, 34] && ReadU64(data, 8) == Some(amount)
            case CurrentValue => data == [232, 199, 167, 206, 247, 56, 234, 20]
  {
    match request
    case Deposit(amount) => NumberAt(DEPOSIT_IX_DISCRIMINATOR, amount, []);
    case Withdraw(amount) => NumberAt(WITHDRAW_IX_DISCRIMINATOR, amount, []);
    case CurrentValue =>
  }

  /** What the adapter decodes is what the user asked the dispatcher for. */
  lemma DecodeEncode(request: Request)
    ensures Decode(Encode(request)) == Some(request)
  {
    var data := Encode(request);
    assert data[0..8] == data[..8];
    if !request.CurrentValue? {
      AppendedField(data[..8], LeBytes64(request.amount), data);
    }
  }
}
