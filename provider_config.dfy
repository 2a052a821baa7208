/** The environment-dependent configuration values that `AppProviders`
    computes (apps/web/app/AppProviders.tsx:48, :57-66, :113). */
module ProviderConfig {
  import opened Wrappers

  /** The placeholder used when no wallet-connect project identifier is configured. */
  const PlaceholderProjectId: string := "dummy-id"

  /** JavaScript truthiness of an optional environment string: `undefined`
      and the empty string are falsy, every other string is truthy. */
  predicate Truthy(value: Option<string>)
  {
    value.Some? && value.value != ""
  }

  /** `process.env.NEXT_PUBLIC_WALLET_CONNECT_PROJECT_ID || 'dummy-id'`. */
  function ProjectId(env: Option<string>): (id: string)
    ensures id != ""
    ensures Truthy(env) ==> id == env.value
    ensures !Truthy(env) ==> id == PlaceholderProjectId
  {
    if Truthy(env) then env.value else PlaceholderProjectId
  }

  /** The chains the wallet configuration knows. */
  datatype Chain = Base | BaseSepolia | Mainnet

  /** The transport bound to a chain: the default `http()` transport, no custom endpoint. */
  datatype Transport = DefaultHttp

  /** The `chains` list of the wallet configuration, in order. */
  const ConfiguredChains: seq<Chain> := [Base, BaseSepolia, Mainnet]

  /** The `transports` table of the wallet configuration. */
  const Transports: map<Chain, Transport> := map[Base := DefaultHttp, BaseSepolia := DefaultHttp, Mainnet := DefaultHttp]

  /** `isDevelopment ? baseSepolia : base`: the chain given to the on-chain API provider. */
  function OnchainKitChain(isDevelopment: bool): (c: Chain)
    ensures c == BaseSepolia <==> isDevelopment
    ensures c == Base <==> !isDevelopment
    ensures c in ConfiguredChains && c in Transports
  {
    if isDevelopment then BaseSepolia else Base
  }

  /** Every configured chain is listed once and has a transport, and nothing
      else has one. */
  lemma ConfiguredChainsHaveTransports()
    ensures forall i, j :: 0 <= i < j < |ConfiguredChains| ==> ConfiguredChains[i] != ConfiguredChains[j]
    ensures forall c :: c in ConfiguredChains <==> c in Transports
  {
  }
}
