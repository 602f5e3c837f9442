/**
 * frontend/src/flow/config.ts: the Flow account addresses the frontend
 * talks to, each forced to carry the "0x" prefix.
 */
module FlowConfig {
  import opened Wrappers
  import opened Strings

  /** `ensureHexPrefix(value)`: nothing gives "", an address with "0x" is kept, any other gets "0x" in front. */
  function EnsureHexPrefix(value: Option<string>): (r: string)
    ensures !TextGiven(value) <==> r == ""
    ensures TextGiven(value) && StartsWith(value.value, "0x") ==> r == value.value
    ensures TextGiven(value) && !StartsWith(value.value, "0x") ==> r == "0x" + value.value
  {
    if !TextGiven(value) then ""
    else if StartsWith(value.value, "0x") then value.value
    else "0x" + value.value
  }

  /** Every address it gives is empty or prefixed, and prefixing twice is prefixing once. */
  lemma {:induction false} EnsureHexPrefixIdempotent(value: Option<string>)
    ensures var r := EnsureHexPrefix(value);
      (r == "" || StartsWith(r, "0x")) && EnsureHexPrefix(Some(r)) == r
  {
    var r := EnsureHexPrefix(value);
    if TextGiven(value) && !StartsWith(value.value, "0x") {
      assert r[..2] == "0x";
    }
  }

  /** `import.meta.env.NAME || fallback`: the variable when it is set to non-empty text. */
  function EnvOr(env: Option<string>, fallback: string): string {
    if TextGiven(env) then env.value else fallback
  }

  datatype FlowAddresses = FlowAddresses(walpayAddress: string, walpayContract: string,
    fungibleTokenAddress: string, flowTokenAddress: string)

  /** `flowConfig` for the four build-time variables; every address comes out with its "0x" prefix. */
  function Addresses(walpay: Option<string>, name: Option<string>, fungible: Option<string>,
    flow: Option<string>): (c: FlowAddresses)
    ensures StartsWith(c.walpayAddress, "0x") && StartsWith(c.fungibleTokenAddress, "0x")
    ensures StartsWith(c.flowTokenAddress, "0x")
    ensures !TextGiven(walpay) ==> c.walpayAddress == "0xf8d6e0586b0a20c7"
    ensures !TextGiven(name) ==> c.walpayContract == "WalPay"
    ensures TextGiven(walpay) && StartsWith(walpay.value, "0x") ==> c.walpayAddress == walpay.value
  {
    var w := EnvOr(walpay, "0xf8d6e0586b0a20c7");
    var f := EnvOr(fungible, "0xee82856bf20e2aa6");
    var t := EnvOr(flow, "0x0ae53cb6e3f42a79");
    EnsureHexPrefixIdempotent(Some(w));
    EnsureHexPrefixIdempotent(Some(f));
    EnsureHexPrefixIdempotent(Some(t));
    FlowAddresses(EnsureHexPrefix(Some(w)), EnvOr(name, "WalPay"), EnsureHexPrefix(Some(f)), EnsureHexPrefix(Some(t)))
  }
}
