/** The REX entry points of the system contract: moving core tokens into and out
    of a user's REX fund, buying REX from the fund, buying REX with tokens that
    are currently staked for bandwidth, and the checks that guard selling REX.

    The REX pool's pricing is not part of this model: the pool is seen only
    through the core tokens handed to it. Token transfers are inline actions on
    the token contract and appear as a log of sent transfers. */
module Rex {
  import opened Ledger

  /** `eosio.rex`, the account holding the REX funds and pool. */
  const RexAccount: Name := 0x5530_ea02_eae8_0000
  /** `eosio.stake`, the account holding staked tokens. */
  const StakeAccount: Name := 0x5530_ea03_1934_1400

  /** The checks of the REX entry points that can fail. */
  datatype RexError =
    | DepositNotCore | DepositNotPositive | WithdrawNotCore | WithdrawNotPositive
    | InsufficientFunds | NotCoreToken | BuyNotPositive | UnstakeNotPositive
    | NoBandwidthRecord | ExceedsNetStake | ExceedsCpuStake
    | NoRexBalance | NotPositiveRex | InsufficientMaturedRex
  {
    /** The message the action aborts with. */
    function Message(): string
    {
      match this
      case DepositNotCore => "must deposit core token"
      case DepositNotPositive => "must deposit a positive amount"
      case WithdrawNotCore => "must withdraw core token"
      case WithdrawNotPositive => "must withdraw a positive amount"
      case InsufficientFunds => "insufficient funds"
      case NotCoreToken => "asset must be core token"
      case BuyNotPositive => "must use positive amount"
      case UnstakeNotPositive => "must unstake a positive amount to buy rex"
      case NoBandwidthRecord => "delegated bandwidth record does not exist"
      case ExceedsNetStake => "amount exceeds tokens staked for net"
      case ExceedsCpuStake => "amount exceeds tokens staked for cpu"
      case NoRexBalance => "user must first buyrex"
      case NotPositiveRex => "asset must be a positive amount of (REX, 4)"
      case InsufficientMaturedRex => "insufficient available rex"
    }
  }

  /** An inline `transfer` action sent to the token contract (its memo aside). */
  datatype Transfer = Transfer(from: Name, to: Name, quantity: Asset)

  /** Key of a delegated-bandwidth row: the table scope (the staker) and the
      primary key (the receiver of the bandwidth). */
  datatype BandwidthKey = BandwidthKey(owner: Name, receiver: Name)

  /** Tokens `from` has staked for `to`'s net and cpu bandwidth. */
  datatype DelegatedBandwidth = DelegatedBandwidth(from: Name, to: Name, netWeight: Asset, cpuWeight: Asset)
  {
    predicate IsEmpty()
    {
      netWeight.amount == 0 && cpuWeight.amount == 0
    }
  }

  /** The receiver's resource totals, as adjusted by `update_resource_limits`. */
  datatype ResourceTotals = ResourceTotals(netWeight: int, cpuWeight: int)

  /** A maturity bucket: `amount` REX that becomes sellable at `time`. */
  datatype Maturity = Maturity(time: TimePoint, amount: int)

  /** A REX balance row. */
  datatype RexBalance = RexBalance(owner: Name, voteStake: Asset, rexBalance: Asset, maturedRex: int, maturities: seq<Maturity>)

  // ---------------------------------------------------------------------------
  // Sums used by the conservation statements

  ghost function Pick<K>(m: map<K, int>): (k: K)
    requires m != map[]
    ensures k in m
  {
    var k :| k in m; k
  }

  /** Sum of the values of a map. */
  ghost function Total<K>(m: map<K, int>): int
    decreases |m|
  {
    if m == map[] then 0 else m[Pick(m)] + Total(m - {Pick(m)})
  }

  lemma {:induction false} TotalRemove<K>(m: map<K, int>, k: K)
    requires k in m
    ensures Total(m) == m[k] + Total(m - {k})
    decreases |m|
  {
    var j := Pick(m);
    if j != k {
      assert (m - {j}).Keys == m.Keys - {j};
      assert (m - {k}).Keys == m.Keys - {k};
      TotalRemove(m - {j}, k);
      TotalRemove(m - {k}, j);
      assert m - {j} - {k} == m - {k} - {j};
    }
  }

  /** The value of `k`, or zero when `k` has no entry. */
  function ValueOr<K>(m: map<K, int>, k: K): int
  {
    if k in m then m[k] else 0
  }

  /** Setting one entry changes the sum by the difference at that entry. */
  lemma TotalUpdate<K>(m: map<K, int>, k: K, v: int)
    ensures Total(m[k := v]) == Total(m) - ValueOr(m, k) + v
  {
    TotalRemove(m[k := v], k);
    assert m[k := v] - {k} == m - {k};
    if k in m {
      TotalRemove(m, k);
    } else {
      assert m - {k} == m;
    }
  }

  /** Net amount the logged transfers moved into `account`. */
  ghost function NetInto(sent: seq<Transfer>, account: Name): int
  {
    if sent == [] then 0
    else
      var t := sent[|sent| - 1];
      NetInto(sent[..|sent| - 1], account)
      + (if t.to == account then t.quantity.amount else 0)
      - (if t.from == account then t.quantity.amount else 0)
  }

  lemma NetIntoAppend(sent: seq<Transfer>, t: Transfer, account: Name)
    ensures NetInto(sent + [t], account) == NetInto(sent, account)
      + (if t.to == account then t.quantity.amount else 0)
      - (if t.from == account then t.quantity.amount else 0)
  {
  }

  /** Net plus cpu tokens of every delegated-bandwidth row, by key. */
  ghost function StakeOf(delband: map<BandwidthKey, DelegatedBandwidth>): map<BandwidthKey, int>
  {
    map k | k in delband :: delband[k].netWeight.amount + delband[k].cpuWeight.amount
  }

  // ---------------------------------------------------------------------------
  // Maturities

  function SumAmounts(ms: seq<Maturity>): int
  {
    if ms == [] then 0 else ms[0].amount + SumAmounts(ms[1..])
  }

  /** Folds every bucket whose time has come into the matured amount and drops
      it; buckets are kept in time order, so the matured ones are a prefix. */
  function ProcessMaturities(b: RexBalance, now: TimePoint): (r: RexBalance)
    ensures r.maturedRex + SumAmounts(r.maturities) == b.maturedRex + SumAmounts(b.maturities)
    ensures |r.maturities| <= |b.maturities|
    ensures r.maturities == b.maturities[|b.maturities| - |r.maturities|..]
    ensures forall i :: 0 <= i < |b.maturities| - |r.maturities| ==> b.maturities[i].time <= now
    ensures r.maturities == [] || now < r.maturities[0].time
    ensures r == b.(maturedRex := r.maturedRex, maturities := r.maturities)
    decreases |b.maturities|
  {
    if b.maturities == [] || now < b.maturities[0].time then b
    else ProcessMaturities(b.(maturedRex := b.maturedRex + b.maturities[0].amount, maturities := b.maturities[1..]), now)
  }

  /** The row after `fromNet` and `fromCpu` are taken out of its weights. */
  function Unstaked(row: DelegatedBandwidth, fromNet: int, fromCpu: int): DelegatedBandwidth
  {
    row.(netWeight := row.netWeight.(amount := row.netWeight.amount - fromNet),
         cpuWeight := row.cpuWeight.(amount := row.cpuWeight.amount - fromCpu))
  }

  /** The receiver's resource totals; a receiver without a row has none. */
  function TotalsOf(totals: map<Name, ResourceTotals>, receiver: Name): ResourceTotals
  {
    if receiver in totals then totals[receiver] else ResourceTotals(0, 0)
  }

  /** Totals with the deltas added to the net and cpu weights. */
  function Adjusted(t: ResourceTotals, deltaNet: int, deltaCpu: int): ResourceTotals
  {
    ResourceTotals(t.netWeight + deltaNet, t.cpuWeight + deltaCpu)
  }

  /** The table after row `k` is replaced by `row`, which is erased instead when empty. */
  function StoreOrErase(delband: map<BandwidthKey, DelegatedBandwidth>, k: BandwidthKey, row: DelegatedBandwidth)
    : map<BandwidthKey, DelegatedBandwidth>
  {
    if row.IsEmpty() then delband - {k} else delband[k := row]
  }

  // ---------------------------------------------------------------------------
  // The checks of the entry points, in the order the actions make them

  /** `deposit`, `withdraw` and `buyrex` accept only a positive amount of the core token. */
  function AmountError(core: Symbol, amount: Asset, notCore: RexError, notPositive: RexError): (r: Option<RexError>)
    ensures r.None? <==> amount.symbol == core && 0 < amount.amount
    ensures amount.symbol != core ==> r == Some(notCore)
    ensures amount.symbol == core && amount.amount <= 0 ==> r == Some(notPositive)
  {
    if amount.symbol != core then Some(notCore)
    else if amount.amount <= 0 then Some(notPositive)
    else None
  }

  /** Taking `amount` out of a REX fund fails when the fund (none counts as
      empty) holds less. */
  function FundError(funds: map<Name, int>, owner: Name, amount: int): (r: Option<RexError>)
    ensures r.None? <==> amount <= ValueOr(funds, owner)
    ensures r.Some? ==> r.value == InsufficientFunds
  {
    if ValueOr(funds, owner) < amount then Some(InsufficientFunds) else None
  }

  function DepositError(core: Symbol, amount: Asset): (r: Option<RexError>)
    ensures r.None? <==> amount.symbol == core && 0 < amount.amount
    ensures r.Some? ==> r.value in {DepositNotCore, DepositNotPositive}
  {
    AmountError(core, amount, DepositNotCore, DepositNotPositive)
  }

  function WithdrawError(core: Symbol, funds: map<Name, int>, owner: Name, amount: Asset): (r: Option<RexError>)
    ensures r.None? <==> amount.symbol == core && 0 < amount.amount <= ValueOr(funds, owner)
    ensures amount.symbol == core && 0 < amount.amount && ValueOr(funds, owner) < amount.amount
      ==> r == Some(InsufficientFunds)
  {
    var err := AmountError(core, amount, WithdrawNotCore, WithdrawNotPositive);
    if err.Some? then err else FundError(funds, owner, amount.amount)
  }

  function BuyRexError(core: Symbol, funds: map<Name, int>, from: Name, amount: Asset): (r: Option<RexError>)
    ensures r.None? <==> amount.symbol == core && 0 < amount.amount <= ValueOr(funds, from)
    ensures amount.symbol == core && 0 < amount.amount && ValueOr(funds, from) < amount.amount
      ==> r == Some(InsufficientFunds)
  {
    var err := AmountError(core, amount, NotCoreToken, BuyNotPositive);
    if err.Some? then err else FundError(funds, from, amount.amount)
  }

  /** `unstaketorex` takes core tokens only, never a negative amount and not
      nothing at all, from an existing stake row, and no more than it holds. */
  function UnstakeToRexError(core: Symbol, delband: map<BandwidthKey, DelegatedBandwidth>,
                             owner: Name, receiver: Name, fromNet: Asset, fromCpu: Asset): (r: Option<RexError>)
    ensures r.None? <==>
      fromNet.symbol == core && fromCpu.symbol == core
      && 0 <= fromNet.amount && 0 <= fromCpu.amount && (0 < fromNet.amount || 0 < fromCpu.amount)
      && BandwidthKey(owner, receiver) in delband
      && fromNet.amount <= delband[BandwidthKey(owner, receiver)].netWeight.amount
      && fromCpu.amount <= delband[BandwidthKey(owner, receiver)].cpuWeight.amount
    ensures fromNet.symbol != core || fromCpu.symbol != core ==> r == Some(NotCoreToken)
    ensures r == Some(UnstakeNotPositive) <==>
      fromNet.symbol == core && fromCpu.symbol == core
      && !(0 <= fromNet.amount && 0 <= fromCpu.amount && (0 < fromNet.amount || 0 < fromCpu.amount))
    ensures r == Some(NoBandwidthRecord) ==> BandwidthKey(owner, receiver) !in delband
    ensures r == Some(ExceedsNetStake) ==>
      BandwidthKey(owner, receiver) in delband
      && fromNet.amount > delband[BandwidthKey(owner, receiver)].netWeight.amount
    ensures r == Some(ExceedsCpuStake) ==>
      BandwidthKey(owner, receiver) in delband
      && fromCpu.amount > delband[BandwidthKey(owner, receiver)].cpuWeight.amount
  {
    var k := BandwidthKey(owner, receiver);
    if fromNet.symbol != core || fromCpu.symbol != core then Some(NotCoreToken)
    else if !(0 <= fromNet.amount && 0 <= fromCpu.amount && (0 < fromNet.amount || 0 < fromCpu.amount))
    then Some(UnstakeNotPositive)
    else if k !in delband then Some(NoBandwidthRecord)
    else if fromNet.amount > delband[k].netWeight.amount then Some(ExceedsNetStake)
    else if fromCpu.amount > delband[k].cpuWeight.amount then Some(ExceedsCpuStake)
    else None
  }

  /** The checks `sellrex` makes before any REX is sold: the seller has a REX
      balance, asks for a positive amount of that balance's symbol, and no more
      than what has matured by `now`. */
  function SellRexError(rexBalances: map<Name, RexBalance>, from: Name, rex: Asset, now: TimePoint): (r: Option<RexError>)
    ensures r.None? <==>
      from in rexBalances && 0 < rex.amount && rex.symbol == rexBalances[from].rexBalance.symbol
      && rex.amount <= ProcessMaturities(rexBalances[from], now).maturedRex
    ensures r == Some(NoRexBalance) <==> from !in rexBalances
    ensures r == Some(NotPositiveRex) <==>
      from in rexBalances && !(0 < rex.amount && rex.symbol == rexBalances[from].rexBalance.symbol)
  {
    if from !in rexBalances then Some(NoRexBalance)
    else if !(rex.amount > 0 && rex.symbol == rexBalances[from].rexBalance.symbol) then Some(NotPositiveRex)
    else if rex.amount > ProcessMaturities(rexBalances[from], now).maturedRex then Some(InsufficientMaturedRex)
    else None
  }

  // ---------------------------------------------------------------------------
  // The contract state touched by the REX entry points

  /** A well-formed delegated-bandwidth row stored under `k`. */
  predicate RowValid(k: BandwidthKey, row: DelegatedBandwidth, core: Symbol)
  {
    row.from == k.owner && row.to == k.receiver
    && row.netWeight.symbol == core && row.cpuWeight.symbol == core
    && 0 <= row.netWeight.amount && 0 <= row.cpuWeight.amount
  }

  class RexLedger {
    /** The chain's core symbol. */
    const core: Symbol
    /** REX fund balances (core-token amounts) by owner. */
    var funds: map<Name, int>
    /** Delegated-bandwidth rows. */
    var delband: map<BandwidthKey, DelegatedBandwidth>
    /** Resource totals by receiver. */
    var totals: map<Name, ResourceTotals>
    /** Core tokens added to the REX pool. */
    var poolIn: int
    /** REX balance rows by owner. */
    var rexBalances: map<Name, RexBalance>
    /** Inline token transfers sent so far. */
    ghost var sent: seq<Transfer>

    ghost predicate Valid()
      reads this
    {
      forall k :: k in delband ==> RowValid(k, delband[k], core)
    }

    /** Core tokens on the REX side (funds and pool) not explained by transfers
        into the REX account; every action keeps it fixed. */
    ghost function RexImbalance(): int
      reads this
    {
      Total(funds) + poolIn - NetInto(sent, RexAccount)
    }

    /** Staked tokens not explained by transfers into the stake account; every
        action keeps it fixed. */
    ghost function StakeImbalance(): int
      reads this
    {
      Total(StakeOf(delband)) - NetInto(sent, StakeAccount)
    }

    constructor (core: Symbol)
      ensures this.core == core && Valid()
      ensures funds == map[] && delband == map[] && totals == map[] && rexBalances == map[]
      ensures poolIn == 0 && sent == []
    {
      this.core := core;
      funds, delband, totals, rexBalances := map[], map[], map[], map[];
      poolIn := 0;
      sent := [];
    }

    /** Moves `amount` from the owner's token balance into the REX fund. */
    method Deposit(owner: Name, amount: Asset) returns (st: Status<RexError>)
      requires Valid()
      modifies this
      ensures Valid()
      ensures st == Outcome(DepositError(core, amount))
      ensures st.Fail? ==> unchanged(this)
      ensures st.Ok? ==>
        funds == old(funds)[owner := ValueOr(old(funds), owner) + amount.amount]
        && sent == old(sent) + [Transfer(owner, RexAccount, amount)]
        && delband == old(delband) && totals == old(totals)
        && poolIn == old(poolIn) && rexBalances == old(rexBalances)
      ensures owner != RexAccount && owner != StakeAccount ==>
        RexImbalance() == old(RexImbalance()) && StakeImbalance() == old(StakeImbalance())
    {
      var err := DepositError(core, amount);
      if err.Some? {
        return Fail(err.value);
      }
      var t := Transfer(owner, RexAccount, amount);
      NetIntoAppend(sent, t, RexAccount);
      NetIntoAppend(sent, t, StakeAccount);
      sent := sent + [t];
      TransferToFund(owner, amount.amount);
      st := Ok;
    }

    /** Moves `amount` out of the REX fund back to the owner's token balance. */
    method Withdraw(owner: Name, amount: Asset) returns (st: Status<RexError>)
      requires Valid()
      modifies this
      ensures Valid()
      ensures st == Outcome(WithdrawError(core, old(funds), owner, amount))
      ensures st.Fail? ==> unchanged(this)
      ensures st.Ok? ==>
        funds == old(funds)[owner := old(funds)[owner] - amount.amount]
        && sent == old(sent) + [Transfer(RexAccount, owner, amount)]
        && delband == old(delband) && totals == old(totals)
        && poolIn == old(poolIn) && rexBalances == old(rexBalances)
      ensures owner != RexAccount && owner != StakeAccount ==>
        RexImbalance() == old(RexImbalance()) && StakeImbalance() == old(StakeImbalance())
    {
      var err := WithdrawError(core, funds, owner, amount);
      if err.Some? {
        return Fail(err.value);
      }
      var t := Transfer(RexAccount, owner, amount);
      NetIntoAppend(sent, t, RexAccount);
      NetIntoAppend(sent, t, StakeAccount);
      sent := sent + [t];
      TransferFromFund(owner, amount.amount);
      st := Ok;
    }

    /** Buys REX with `amount` taken from the buyer's REX fund; the tokens go to the pool. */
    method BuyRex(from: Name, amount: Asset) returns (st: Status<RexError>)
      requires Valid()
      modifies this
      ensures Valid()
      ensures st == Outcome(BuyRexError(core, old(funds), from, amount))
      ensures st.Fail? ==> unchanged(this)
      ensures st.Ok? ==>
        funds == old(funds)[from := old(funds)[from] - amount.amount]
        && poolIn == old(poolIn) + amount.amount
        && sent == old(sent) && delband == old(delband) && totals == old(totals)
        && rexBalances == old(rexBalances)
      ensures RexImbalance() == old(RexImbalance()) && StakeImbalance() == old(StakeImbalance())
    {
      var err := BuyRexError(core, funds, from, amount);
      if err.Some? {
        return Fail(err.value);
      }
      TransferFromFund(from, amount.amount);
      poolIn := poolIn + amount.amount;
      st := Ok;
    }

    /** Buys REX with tokens `owner` staked for `receiver`: the stake row shrinks
        (and is erased once empty), the receiver's totals drop, and the tokens move
        from the stake account to the REX account and into the pool. */
    method UnstakeToRex(owner: Name, receiver: Name, fromNet: Asset, fromCpu: Asset) returns (st: Status<RexError>)
      requires Valid()
      modifies this
      ensures Valid()
      ensures st == Outcome(UnstakeToRexError(core, old(delband), owner, receiver, fromNet, fromCpu))
      ensures st.Fail? ==> unchanged(this)
      ensures st.Ok? ==>
        var k := BandwidthKey(owner, receiver);
        var payment := Asset(fromNet.amount + fromCpu.amount, core);
        delband == StoreOrErase(old(delband), k, Unstaked(old(delband)[k], fromNet.amount, fromCpu.amount))
        && totals == old(totals)[receiver := Adjusted(TotalsOf(old(totals), receiver), -fromNet.amount, -fromCpu.amount)]
        && sent == old(sent) + [Transfer(StakeAccount, RexAccount, payment)]
        && poolIn == old(poolIn) + payment.amount
        && funds == old(funds) && rexBalances == old(rexBalances)
      ensures RexImbalance() == old(RexImbalance()) && StakeImbalance() == old(StakeImbalance())
    {
      var err := UnstakeToRexError(core, delband, owner, receiver, fromNet, fromCpu);
      if err.Some? {
        return Fail(err.value);
      }
      var payment := Asset(fromNet.amount + fromCpu.amount, core);
      var t := Transfer(StakeAccount, RexAccount, payment);
      NetIntoAppend(sent, t, RexAccount);
      NetIntoAppend(sent, t, StakeAccount);
      sent := sent + [t];
      UpdateResourceLimits(receiver, -fromNet.amount, -fromCpu.amount);
      ReduceStake(BandwidthKey(owner, receiver), fromNet.amount, fromCpu.amount);
      poolIn := poolIn + payment.amount;
      st := Ok;
    }

    /** Credits `amount` to the owner's REX fund, opening it when absent. */
    method TransferToFund(owner: Name, amount: int)
      modifies this`funds
      ensures funds == old(funds)[owner := ValueOr(old(funds), owner) + amount]
      ensures Total(funds) == old(Total(funds)) + amount
    {
      TotalUpdate(funds, owner, ValueOr(funds, owner) + amount);
      funds := funds[owner := ValueOr(funds, owner) + amount];
    }

    /** Debits `amount` from the owner's REX fund, which holds at least that much. */
    method TransferFromFund(owner: Name, amount: int)
      requires 0 < amount && FundError(funds, owner, amount).None?
      modifies this`funds
      ensures funds == old(funds)[owner := old(funds)[owner] - amount]
      ensures Total(funds) == old(Total(funds)) - amount
    {
      TotalUpdate(funds, owner, funds[owner] - amount);
      funds := funds[owner := funds[owner] - amount];
    }

    /** The checks `sellrex` makes before selling, on the REX balance rows; nothing changes. */
    method SellRexCheck(from: Name, rex: Asset, now: TimePoint) returns (st: Status<RexError>)
      ensures st == Outcome(SellRexError(rexBalances, from, rex, now))
    {
      if from !in rexBalances {
        return Fail(NoRexBalance);
      }
      var b := rexBalances[from];
      if !(rex.amount > 0 && rex.symbol == b.rexBalance.symbol) {
        return Fail(NotPositiveRex);
      }
      b := ProcessMaturities(b, now);
      if rex.amount > b.maturedRex {
        return Fail(InsufficientMaturedRex);
      }
      return Ok;
    }

    /** Adds the deltas to the receiver's resource totals, starting from zero. */
    method UpdateResourceLimits(receiver: Name, deltaNet: int, deltaCpu: int)
      modifies this`totals
      ensures totals == old(totals)[receiver := Adjusted(TotalsOf(old(totals), receiver), deltaNet, deltaCpu)]
    {
      totals := totals[receiver := Adjusted(TotalsOf(totals, receiver), deltaNet, deltaCpu)];
    }

    /** Takes the amounts out of row `k`'s weights, erasing the row once both are zero. */
    method ReduceStake(k: BandwidthKey, fromNet: int, fromCpu: int)
      requires Valid() && k in delband
      requires 0 <= fromNet <= delband[k].netWeight.amount && 0 <= fromCpu <= delband[k].cpuWeight.amount
      modifies this`delband
      ensures Valid()
      ensures delband == StoreOrErase(old(delband), k, Unstaked(old(delband)[k], fromNet, fromCpu))
      ensures Total(StakeOf(delband)) == old(Total(StakeOf(delband))) - fromNet - fromCpu
    {
      ghost var before := StakeOf(delband);
      UnstakedRow(delband, k, core, fromNet, fromCpu);
      var row := Unstaked(delband[k], fromNet, fromCpu);
      if row.IsEmpty() {
        delband := delband - {k};
        assert StakeOf(delband) == before - {k};
        TotalRemove(before, k);
      } else {
        delband := delband[k := row];
        assert StakeOf(delband) == before[k := row.netWeight.amount + row.cpuWeight.amount];
        TotalUpdate(before, k, row.netWeight.amount + row.cpuWeight.amount);
      }
    }
  }

  /** Taking staked tokens out of a well-formed row: the row stays well-formed,
      its weights lose exactly the payment, and it is erased from the table
      exactly when both amounts were its whole weights. */
  lemma UnstakedRow(delband: map<BandwidthKey, DelegatedBandwidth>, k: BandwidthKey, core: Symbol,
                    fromNet: int, fromCpu: int)
    requires k in delband && RowValid(k, delband[k], core)
    requires 0 <= fromNet <= delband[k].netWeight.amount && 0 <= fromCpu <= delband[k].cpuWeight.amount
    ensures var row := delband[k];
      var row' := Unstaked(row, fromNet, fromCpu);
      RowValid(k, row', core)
      && (row.netWeight.amount + row.cpuWeight.amount) - (row'.netWeight.amount + row'.cpuWeight.amount) == fromNet + fromCpu
      && (k in StoreOrErase(delband, k, row') <==> fromNet < row.netWeight.amount || fromCpu < row.cpuWeight.amount)
      && (forall j :: j != k ==> (j in StoreOrErase(delband, k, row') <==> j in delband))
  {
  }
}
