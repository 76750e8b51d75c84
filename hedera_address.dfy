/**
 * The EVM address of the Ed25519 account (src/utils/hedera.ts): ask the mirror node first,
 * fall back to the SDK's computed Solidity address, and make sure the result carries `0x`.
 * The HTTP request and the SDK conversion are inputs of the model.
 */
module HederaAddress {
  import opened Wrappers
  import opened Rpc

  /** Where an address came from. */
  datatype Source = Mirror | Sdk

  /** `{ address: string | null, source: 'mirror' | 'sdk' | null }` */
  datatype AddressResult = AddressResult(address: Option<string>, source: Option<Source>)

  /** `{ address: string, source: 'mirror' | 'sdk' }` */
  datatype EvmAddress = EvmAddress(address: string, source: Source)

  /**
   * The outcome of `fetch(url)` followed by `response.json()`: an exception (network error,
   * body that is not JSON), a response that is not ok, or the account's `evm_address` field.
   */
  datatype MirrorResponse = FetchThrew | NotOk(status: int) | Ok(evmAddress: Option<string>)

  /** The mirror node is reached by a fetch of a URL. */
  type Fetch = string -> MirrorResponse

  /** `AccountId.fromString(id).toSolidityAddress()`, `None` when either call throws. */
  type SdkConversion = string -> Option<string>

  const TESTNET_MIRROR := "https://testnet.mirrornode.hedera.com"
  const MAINNET_MIRROR := "https://mainnet-public.mirrornode.hedera.com"
  const SDK_ERROR_ADDRESS := "Error calculating address"

  predicate HasHexPrefix(s: string)
  {
    |s| >= 2 && s[0] == '0' && s[1] == 'x'
  }

  /** The mirror node queried for a network. */
  function MirrorBase(network: Network): (url: string)
    ensures network == Testnet ==> url == TESTNET_MIRROR
    ensures network != Testnet ==> url == MAINNET_MIRROR
  {
    if network == Testnet then TESTNET_MIRROR else MAINNET_MIRROR
  }

  /** The account endpoint of the mirror node's REST API. */
  function AccountUrl(network: Network, accountId: string): (url: string)
  {
    MirrorBase(network) + "/api/v1/accounts/" + accountId
  }

  /** `s.startsWith('0x') ? s : '0x' + s` */
  function WithHexPrefix(s: string): (r: string)
    ensures HasHexPrefix(r)
    ensures HasHexPrefix(s) ==> r == s
    ensures !HasHexPrefix(s) ==> r == "0x" + s
  {
    if HasHexPrefix(s) then s else "0x" + s
  }

  /**
   * `getEvmAddressFromMirror`: either the mirror found a non-empty `evm_address`, returned
   * 0x-prefixed with source mirror, or the result is `{null, null}` (a fetch exception, a
   * response that is not ok, a missing or empty field). Only the chosen network's account URL
   * is asked.
   */
  function GetEvmAddressFromMirror(fetch: Fetch, accountId: string, network: Network): (r: AddressResult)
    ensures r.address.Some? <==> r.source.Some?
    ensures r.address.Some? ==> r.source == Some(Mirror) && HasHexPrefix(r.address.value)
    ensures var resp := fetch(AccountUrl(network, accountId));
      (r.address.Some? <==> (resp.Ok? && resp.evmAddress.Some? && resp.evmAddress.value != "")) &&
      (r.address.Some? ==> r.address.value == WithHexPrefix(resp.evmAddress.value))
  {
    match fetch(AccountUrl(network, accountId))
    case FetchThrew => AddressResult(None, None)
    case NotOk(_) => AddressResult(None, None)
    case Ok(evm) =>
      if evm.Some? && evm.value != "" then AddressResult(Some(WithHexPrefix(evm.value)), Some(Mirror))
      else AddressResult(None, None)
  }

  /** `getSolidityAddressFromSdk`: the 0x-prefixed SDK address, or the sentinel when the conversion throws. */
  function GetSolidityAddressFromSdk(sdk: SdkConversion, accountId: string): (r: string)
    ensures sdk(accountId).None? ==> r == SDK_ERROR_ADDRESS
    ensures sdk(accountId).Some? ==> HasHexPrefix(r) && r == WithHexPrefix(sdk(accountId).value)
  {
    match sdk(accountId)
    case None => SDK_ERROR_ADDRESS
    case Some(address) => WithHexPrefix(address)
  }

  /**
   * `getEd25519EvmAddress`, the fallback rule: the mirror's address is used exactly when the
   * mirror found one and the SDK's otherwise, so the source is never null, and the address is
   * 0x-prefixed unless it is the sentinel of a failed conversion.
   */
  function GetEd25519EvmAddress(fetch: Fetch, sdk: SdkConversion, accountId: string, network: Network): (r: EvmAddress)
    ensures var mirror := GetEvmAddressFromMirror(fetch, accountId, network);
      (r.source == Mirror <==> mirror.address.Some?) &&
      (mirror.address.Some? ==> r.address == mirror.address.value) &&
      (mirror.address.None? ==> r.address == GetSolidityAddressFromSdk(sdk, accountId))
    ensures HasHexPrefix(r.address) || (r.source == Sdk && r.address == SDK_ERROR_ADDRESS && sdk(accountId).None?)
  {
    var mirror := GetEvmAddressFromMirror(fetch, accountId, network);
    if mirror.address.Some? && mirror.address.value != "" && mirror.source == Some(Mirror) then
      EvmAddress(mirror.address.value, Mirror)
    else
      EvmAddress(GetSolidityAddressFromSdk(sdk, accountId), Sdk)
  }
}
