/**
 Filling in the fee fields of a call and turning them into a message, as the
 eth_call family of methods does.
 */
module CallFees {
  import opened Base

  const MAX_UINT64 := 0xFFFF_FFFF_FFFF_FFFF

  /** The fields of the arguments that fees and type selection read; the contents of
      access lists and blob hashes do not matter, only whether they are there. */
  datatype Args = Args(
    gas: Option<nat>, gasPrice: Option<int>, maxFee: Option<int>, maxTip: Option<int>,
    value: Option<int>, nonce: Option<nat>, chainId: Option<int>,
    accessList: bool, blobFeeCap: Option<int>, blobHashes: bool)

  datatype Error = MixedFees | WrongChain

  datatype Message = Message(gasLimit: nat, nonce: nat, value: int, gasPrice: int, feeCap: int, tipCap: int)

  function Or<T>(x: Option<T>, default: T): T {
    if x.Some? then x.value else default
  }

  predicate MixesFees(a: Args) {
    a.gasPrice.Some? && (a.maxFee.Some? || a.maxTip.Some?)
  }

  function CappedGas(gas: Option<nat>, cap: nat): nat {
    if gas.None? then (if cap == 0 then MAX_UINT64 / 2 else cap)
    else if 0 < cap < gas.value then cap
    else gas.value
  }

  function Defaulted(a: Args, cap: nat, baseFee: Option<int>, chainId: int): Result<Args, Error> {
    if MixesFees(a) then Err(MixedFees)
    else if a.chainId.Some? && a.chainId.value != chainId then Err(WrongChain)
    else Ok(a.(
      chainId := Some(chainId),
      gas := Some(CappedGas(a.gas, cap)),
      nonce := Some(Or(a.nonce, 0)),
      value := Some(Or(a.value, 0)),
      gasPrice := if baseFee.None? then Some(Or(a.gasPrice, 0)) else a.gasPrice,
      maxFee := if baseFee.Some? then Some(Or(a.maxFee, 0)) else a.maxFee,
      maxTip := if baseFee.Some? then Some(Or(a.maxTip, 0)) else a.maxTip,
      blobFeeCap := if a.blobHashes then Some(Or(a.blobFeeCap, 0)) else a.blobFeeCap))
  }

  /** The arguments as an object whose nil fields are filled in place. */
  class TransactionArgs {
    var gas: Option<nat>
    var gasPrice: Option<int>
    var maxFee: Option<int>
    var maxTip: Option<int>
    var value: Option<int>
    var nonce: Option<nat>
    var chainId: Option<int>
    var accessList: bool
    var blobFeeCap: Option<int>
    var blobHashes: bool

    ghost function View(): Args
      reads this
    {
      Args(gas, gasPrice, maxFee, maxTip, value, nonce, chainId, accessList, blobFeeCap, blobHashes)
    }

    method CallDefaults(cap: nat, baseFee: Option<int>, nodeChain: int) returns (error: Option<Error>)
      modifies this
      ensures match Defaulted(old(View()), cap, baseFee, nodeChain)
              case Ok(b) => error == None && View() == b
              case Err(e) => error == Some(e) && View() == old(View())
    {
      if gasPrice.Some? && (maxFee.Some? || maxTip.Some?) {
        return Some(MixedFees);
      }
      if chainId.None? {
        chainId := Some(nodeChain);
      } else if chainId.value != nodeChain {
        return Some(WrongChain);
      }
      FillLimits(cap);
      FillFees(baseFee);
      return None;
    }

    method FillLimits(cap: nat)
      modifies this`gas, this`nonce, this`value
      ensures gas == Some(CappedGas(old(gas), cap)) && nonce == Some(Or(old(nonce), 0)) &&
          value == Some(Or(old(value), 0))
    {
      if gas.None? {
        gas := Some(if cap == 0 then MAX_UINT64 / 2 else cap);
      } else if cap > 0 && cap < gas.value {
        gas := Some(cap);
      }
      if nonce.None? {
        nonce := Some(0);
      }
      if value.None? {
        value := Some(0);
      }
    }

    method FillFees(baseFee: Option<int>)
      modifies this`gasPrice, this`maxFee, this`maxTip, this`blobFeeCap
      ensures gasPrice == if baseFee.None? then Some(Or(old(gasPrice), 0)) else old(gasPrice)
      ensures maxFee == if baseFee.Some? then Some(Or(old(maxFee), 0)) else old(maxFee)
      ensures maxTip == if baseFee.Some? then Some(Or(old(maxTip), 0)) else old(maxTip)
      ensures blobFeeCap == if blobHashes then Some(Or(old(blobFeeCap), 0)) else old(blobFeeCap)
    {
      if baseFee.None? {
        if gasPrice.None? {
          gasPrice := Some(0);
        }
      } else {
        if maxFee.None? {
          maxFee := Some(0);
        }
        if maxTip.None? {
          maxTip := Some(0);
        }
      }
      if blobFeeCap.None? && blobHashes {
        blobFeeCap := Some(0);
      }
    }
  }

  function BackfilledPrice(feeCap: int, tip: int, base: int): int {
    if feeCap != 0 || tip != 0 then (if tip + base > feeCap then feeCap else tip + base) else 0
  }

  /** The message, or `None` where the program would read a nil field. */
  function ToMessage(a: Args, baseFee: Option<int>): Option<Message> {
    if a.gas.None? || a.nonce.None? || a.value.None? then None
    else if a.gasPrice.Some? then
      Some(Message(a.gas.value, a.nonce.value, a.value.value, a.gasPrice.value, a.gasPrice.value, a.gasPrice.value))
    else if baseFee.None? || a.maxFee.None? || a.maxTip.None? then None
    else
      var price := BackfilledPrice(a.maxFee.value, a.maxTip.value, baseFee.value);
      Some(Message(a.gas.value, a.nonce.value, a.value.value, price, a.maxFee.value, a.maxTip.value))
  }

  /** The effective gas price of a transaction, as in the Specification section of
      EIP-1559: the tip is bounded by what the fee cap leaves above the base fee. */
  function EffectiveGasPrice(feeCap: int, tip: int, base: int): int {
    Min(tip, feeCap - base) + base
  }

  /** After the defaults a message reads no nil field, its gas stays within a positive
      cap, legacy prices are taken over as they are, and fields the caller gave are
      kept, except gas above the cap. */
  lemma DefaultsSuffice(a: Args, cap: nat, baseFee: Option<int>, chainId: int)
    requires Defaulted(a, cap, baseFee, chainId).Ok?
    ensures var b := Defaulted(a, cap, baseFee, chainId).value;
      && ToMessage(b, baseFee).Some?
      && var m := ToMessage(b, baseFee).value;
         && (cap > 0 ==> m.gasLimit <= cap)
         && (a.gas.Some? && (cap == 0 || a.gas.value <= cap) ==> m.gasLimit == a.gas.value)
         && (a.nonce.Some? ==> m.nonce == a.nonce.value)
         && (a.value.Some? ==> m.value == a.value.value)
         && (a.gasPrice.Some? ==> m.gasPrice == m.feeCap == m.tipCap == a.gasPrice.value)
         && (a.gasPrice.None? && baseFee.None? ==> m.gasPrice == m.feeCap == m.tipCap == 0)
         && (a.gasPrice.None? && baseFee.Some? ==> m.feeCap == Or(a.maxFee, 0) && m.tipCap == Or(a.maxTip, 0))
  {}

  /** On the fee-market path the price is the effective gas price of EIP-1559, exactly
      unless both fees are zero and the base fee negative: for the non-negative values
      of the wire format the zero guard changes nothing. */
  lemma PriceIsEffective(a: Args, cap: nat, base: int, chainId: int)
    requires Defaulted(a, cap, Some(base), chainId).Ok? && a.gasPrice.None?
    ensures var m := ToMessage(Defaulted(a, cap, Some(base), chainId).value, Some(base)).value;
      && (m.gasPrice == EffectiveGasPrice(m.feeCap, m.tipCap, base) <==> m.feeCap != 0 || m.tipCap != 0 || base >= 0)
      && (base >= 0 ==> m.gasPrice == Min(m.tipCap + base, m.feeCap))
      && (m.feeCap >= base >= 0 && m.tipCap >= 0 ==> base <= m.gasPrice <= m.feeCap)
  {
    DefaultsSuffice(a, cap, Some(base), chainId);
  }

  datatype TxType = Legacy | AccessListTx | DynamicFee | Blob

  function UsedType(a: Args, default: TxType): TxType {
    if a.gasPrice.Some? then Legacy
    else if a.blobHashes || default == Blob then Blob
    else if a.maxFee.Some? || default == DynamicFee then DynamicFee
    else if a.accessList || default == AccessListTx then AccessListTx
    else Legacy
  }

  /** After the defaults the access-list type is out of reach, whatever was asked. */
  lemma NeverAccessList(a: Args, cap: nat, baseFee: Option<int>, chainId: int, default: TxType)
    requires Defaulted(a, cap, baseFee, chainId).Ok?
    ensures UsedType(Defaulted(a, cap, baseFee, chainId).value, default) != AccessListTx
    ensures UsedType(Defaulted(a, cap, baseFee, chainId).value, default) == Legacy <==>
        a.gasPrice.Some? || baseFee.None?
  {}

  /** Filling in defaults a second time succeeds, and then changes nothing, exactly
      when the fee style matches the chain: a legacy price on a fee-market chain, or
      market fees on a legacy one, have become a forbidden mixture. */
  lemma SecondCall(a: Args, cap: nat, baseFee: Option<int>, chainId: int)
    requires Defaulted(a, cap, baseFee, chainId).Ok?
    ensures var b := Defaulted(a, cap, baseFee, chainId).value;
      && (Defaulted(b, cap, baseFee, chainId) == Ok(b)
          <==> if baseFee.Some? then a.gasPrice.None? else a.maxFee.None? && a.maxTip.None?)
      && (Defaulted(b, cap, baseFee, chainId) == Ok(b) || Defaulted(b, cap, baseFee, chainId) == Err(MixedFees))
  {}
}
