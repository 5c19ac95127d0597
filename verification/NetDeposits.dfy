/**
 How a position tracks `deposited_amount`: a checked addition on every deposit and a saturating
 subtraction on every withdrawal.
 */
module NetDeposits {
  import opened Wrappers
  import opened MachineInts

  datatype Op = Deposited(amount: u64) | Withdrawn(amount: u64)

  function Step(balance: u64, op: Op): Option<u64> {
    match op
    case Deposited(amount) => CheckedAdd64(balance, amount)
    case Withdrawn(amount) => Some(SaturatingSub64(balance, amount))
  }

  /** The tracked amount after a run of operations from zero, if none of them overflows. */
  function Track(ops: seq<Op>): Option<u64> {
    if ops == [] then Some(0) else
      var balance :- Track(ops[..|ops| - 1]);
      Step(balance, ops[|ops| - 1])
  }

  function Signed(op: Op): int {
    var amount: int := op.amount;
    if op.Deposited? then amount else -amount
  }

  /** Signed running sum: deposits minus withdrawals. */
  function Net(ops: seq<Op>): int {
    if ops == [] then 0 else
      Net(ops[..|ops| - 1]) + Signed(ops[|ops| - 1])
  }

  lemma TrackAppend(ops: seq<Op>, op: Op)
    requires Track(ops).Some?
    ensures Track(ops + [op]) == Step(Track(ops).value, op)
  {
    assert (ops + [op])[..|ops|] == ops;
  }

  /** The tracked amount is the largest rise of the running sum to its end: a reflected walk. */
  lemma {:induction false} ReflectedWalk(ops: seq<Op>, balance: u64)
    requires Track(ops) == Some(balance)
    ensures forall k | 0 <= k <= |ops| :: Net(ops) - Net(ops[..k]) <= balance
    ensures exists k | 0 <= k <= |ops| :: balance == Net(ops) - Net(ops[..k])
  {
    assert ops[..|ops|] == ops;
    if ops == [] {
    } else {
      var shorter := ops[..|ops| - 1];
      ReflectedWalk(shorter, Track(shorter).value);
      forall k | 0 <= k <= |ops|
        ensures Net(ops) - Net(ops[..k]) <= balance
      {
        if k < |ops| {
          assert shorter[..k] == ops[..k];
        }
      }
      var k :| 0 <= k <= |shorter| && Track(shorter).value == Net(shorter) - Net(shorter[..k]);
      assert shorter[..k] == ops[..k];
      assert balance == Net(ops) - Net(ops[..k]) || balance == Net(ops) - Net(ops[..|ops|]);
    }
  }

  /** It is the plain net sum exactly when no prefix withdrew more than it had deposited. */
  lemma NetExactly(ops: seq<Op>, balance: u64)
    requires Track(ops) == Some(balance)
    ensures Net(ops) <= balance
    ensures balance == Net(ops) <==> forall k | 0 <= k <= |ops| :: 0 <= Net(ops[..k])
  {
    ReflectedWalk(ops, balance);
    assert Net(ops[..0]) == 0;
  }
}
