/**
 Platform fees, written three times in the repository, and the network fee a
 prepared transaction leaves (backend/src/payment-fee.ts, shared/src/index.ts,
 backend/contracts/membership.sil, backend/src/membership-gateway.ts).
 */
module Fees {
  import opened Wrappers

  /** Division of the source's integers, which truncates toward zero. */
  function Div(a: int, b: int): int
    requires b > 0
  {
    if a >= 0 then a / b else -((-a) / b)
  }

  // ----- platform fee ---------------------------------------------------------

  const MIN_PLATFORM_FEE_SOMPI := 100_000_000

  /** `platformFeeSompi`, in basis points. */
  function PlatformFeeSompi(amount: int): Result<int> {
    if amount < 0 then Err("INVALID_PAYMENT_AMOUNT")
    else
      var fee := Div(amount * 100 + Div(10_000, 2), 10_000);
      Ok(if fee >= MIN_PLATFORM_FEE_SOMPI then fee else 0)
  }

  /** `membershipFeeSompi`, in percent. */
  function MembershipFeeSompi(price: int): int {
    var fee := Div(price + 50, 100);
    if fee >= 100_000_000 then fee else 0
  }

  /** `platformPayment` of the covenant's mint entry. */
  function ContractPlatformPayment(price: int): int {
    var payment := Div(price + 50, 100);
    if payment < 100_000_000 then 0 else payment
  }

  /** The three formulas are one: a percent rounded half up, waived below one KAS. */
  lemma {:induction false} FeeFormulasAgree(amount: int)
    ensures ContractPlatformPayment(amount) == MembershipFeeSompi(amount)
    ensures PlatformFeeSompi(amount) ==
            if amount < 0 then Err("INVALID_PAYMENT_AMOUNT") else Ok(MembershipFeeSompi(amount))
    ensures var fee := MembershipFeeSompi(amount);
            if amount < 9_999_999_950 then fee == 0
            else fee >= MIN_PLATFORM_FEE_SOMPI && 100 * fee - 50 <= amount < 100 * fee + 50
  {
    if amount >= 0 {
      assert (amount * 100 + 5_000) / 10_000 == (amount + 50) / 100;
    }
  }

  // ----- network fee ----------------------------------------------------------

  const WALLET_COMPUTE_BUDGET := 50
  const COVENANT_COMPUTE_BUDGET := 50
  const SIGNATURE_ESTIMATE := 66

  /** What the estimate looks at: script bytes (none while unsigned) and budget. */
  datatype InputShape = InputShape(signatureBytes: nat, computeBudget: nat)

  /** Bytes of the output's script, without its version, and whether it is bound. */
  datatype OutputShape = OutputShape(scriptBytes: nat, bound: bool)

  const WALLET_INPUT := InputShape(0, WALLET_COMPUTE_BUDGET)
  const KEY_OUTPUT := OutputShape(34, false)

  function WalletInputs(count: nat): (r: seq<InputShape>)
    ensures |r| == count
  {
    seq(count, _ => WALLET_INPUT)
  }

  function InputSize(inputs: seq<InputShape>): nat {
    if inputs == [] then 0
    else
      InputSize(inputs[..|inputs| - 1])
      + 32 + 4 + 8
      + (if inputs[|inputs| - 1].signatureBytes > 0 then inputs[|inputs| - 1].signatureBytes else SIGNATURE_ESTIMATE)
      + 8 + 2
  }

  function OutputSize(outputs: seq<OutputShape>): nat {
    if outputs == [] then 0
    else
      OutputSize(outputs[..|outputs| - 1])
      + 8 + 2 + 8 + outputs[|outputs| - 1].scriptBytes + (if outputs[|outputs| - 1].bound then 34 else 0)
  }

  function ScriptSize(outputs: seq<OutputShape>): nat {
    if outputs == [] then 0
    else ScriptSize(outputs[..|outputs| - 1]) + 2 + outputs[|outputs| - 1].scriptBytes
  }

  function Budget(inputs: seq<InputShape>): nat {
    if inputs == [] then 0 else Budget(inputs[..|inputs| - 1]) + inputs[|inputs| - 1].computeBudget
  }

  function ComputeMass(inputs: seq<InputShape>, outputs: seq<OutputShape>, payloadBytes: nat): nat {
    2 + 8 + InputSize(inputs) + 8 + OutputSize(outputs) + 8 + 20 + 8 + 32 + 8 + payloadBytes
    + 10 * ScriptSize(outputs)
    + 100 * Budget(inputs)
  }

  function Ceil(x: real): int {
    -((-x).Floor)
  }

  /** `mass * rate`, rounded up, but at least 100 a gram. */
  function FeeOfMass(mass: nat, rate: real): (fee: int)
    requires rate > 0.0
    ensures fee >= 100 * mass && fee as real >= mass as real * rate
    ensures fee == 100 * mass || (fee - 1) as real < mass as real * rate
  {
    var estimated := Ceil(mass as real * rate);
    if estimated > 100 * mass then estimated else 100 * mass
  }

  function EstimatedFee(
    inputs: seq<InputShape>, outputs: seq<OutputShape>, rate: real, payloadBytes: nat): Result<int>
  {
    if rate <= 0.0 then Err("INVALID_FEE_RATE")
    else Ok(FeeOfMass(ComputeMass(inputs, outputs, payloadBytes), rate))
  }

  /** The copy in backend/src/payment-gateway.ts, over counts. */
  function PaymentEstimatedFee(inputs: nat, rate: real, outputs: nat, payloadBytes: nat): Result<int> {
    if rate <= 0.0 then Err("INVALID_FEE_RATE")
    else
      var inputSize := inputs * (32 + 4 + 8 + 66 + 8 + 2);
      var outputSize := outputs * (8 + 2 + 8 + 34);
      var transactionSize := 2 + 8 + inputSize + 8 + outputSize + 8 + 20 + 8 + 32 + 8 + payloadBytes;
      var scriptPublicKeyMass := 10 * outputs * (2 + 34);
      Ok(FeeOfMass(transactionSize + scriptPublicKeyMass + 100 * inputs * 50, rate))
  }

  lemma {:induction false} WalletInputsMass(count: nat)
    ensures InputSize(WalletInputs(count)) == 120 * count
    ensures Budget(WalletInputs(count)) == 50 * count
  {
    if count > 0 {
      WalletInputsMass(count - 1);
      assert WalletInputs(count)[..count - 1] == WalletInputs(count - 1);
    }
  }

  lemma {:induction false} KeyOutputsMass(count: nat)
    ensures OutputSize(seq(count, _ => KEY_OUTPUT)) == 52 * count
    ensures ScriptSize(seq(count, _ => KEY_OUTPUT)) == 36 * count
  {
    if count > 0 {
      KeyOutputsMass(count - 1);
      assert seq(count, _ => KEY_OUTPUT)[..count - 1] == seq(count - 1, _ => KEY_OUTPUT);
    }
  }

  /** Both gateways estimate the same fee for a plain key-to-key transaction. */
  lemma {:induction false} EstimatesAgree(inputs: nat, rate: real, outputs: nat, payloadBytes: nat)
    ensures PaymentEstimatedFee(inputs, rate, outputs, payloadBytes) ==
            EstimatedFee(WalletInputs(inputs), seq(outputs, _ => KEY_OUTPUT), rate, payloadBytes)
  {
    WalletInputsMass(inputs);
    KeyOutputsMass(outputs);
  }

  /** Leaving out trailing outputs only makes a transaction lighter. */
  lemma {:induction false} FewerOutputsWeighLess(
    inputs: seq<InputShape>, outputs: seq<OutputShape>, count: nat, payloadBytes: nat)
    requires count <= |outputs|
    ensures ComputeMass(inputs, outputs[..count], payloadBytes) <= ComputeMass(inputs, outputs, payloadBytes)
    decreases |outputs|
  {
    if count < |outputs| {
      var last := |outputs| - 1;
      FewerOutputsWeighLess(inputs, outputs[..last], count, payloadBytes);
      assert outputs[..last][..count] == outputs[..count];
    } else {
      assert outputs[..count] == outputs;
    }
  }

  lemma {:induction false} ScalesUp(x: real, y: real, rate: real)
    requires x <= y && rate > 0.0
    ensures x * rate <= y * rate
  {
  }

  lemma {:induction false} CeilGrows(x: real, y: real)
    requires x <= y
    ensures Ceil(x) <= Ceil(y)
  {
  }

  lemma {:induction false} FeeGrowsWithMass(light: nat, heavy: nat, rate: real)
    requires rate > 0.0 && light <= heavy
    ensures FeeOfMass(light, rate) <= FeeOfMass(heavy, rate)
  {
    var x, y := light as real * rate, heavy as real * rate;
    ScalesUp(light as real, heavy as real, rate);
    CeilGrows(x, y);
  }
}
