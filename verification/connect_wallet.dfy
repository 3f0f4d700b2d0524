/** The wallet connection page (`frontend/app/connect-wallet/page.ts`): the
    network check, the switch to Ethereum Mainnet, and what the page shows
    of the account. */
module ConnectWallet {
  import opened Common
  import opened WalletSession

  /** The chain ids the page can name. */
  const KnownNetworks: map<string, string> := map[
    "0x1" := "Ethereum Mainnet",
    "0x3" := "Ropsten Testnet",
    "0x4" := "Rinkeby Testnet",
    "0x5" := "Goerli Testnet",
    "0x2a" := "Kovan Testnet",
    "0x89" := "Polygon Mainnet",
    "0x13881" := "Polygon Mumbai Testnet"]

  /** The chains the page accepts without a network warning. */
  const SupportedChains: seq<string> := ["0x1", "0x5", "0x89"]

  /** The chain the switch button asks for. */
  const MainnetChainId: string := "0x1"

  /** `networks[chainId] || "Chain ID: " + chainId`. */
  function NetworkName(chainId: string): (name: string)
    ensures chainId in KnownNetworks ==> name == KnownNetworks[chainId]
    ensures chainId !in KnownNetworks ==> name == "Chain ID: " + chainId
    ensures name != ""
  {
    if chainId in KnownNetworks && KnownNetworks[chainId] != "" then KnownNetworks[chainId]
    else "Chain ID: " + chainId
  }

  /** `supportedChains.includes(chainId)`. */
  predicate IsSupported(chainId: string)
  {
    chainId in SupportedChains
  }

  /** Mainnet, Goerli and Polygon pass the check; the other named test
      networks and every unnamed chain raise the warning. */
  lemma SupportedNetworks(chainId: string)
    ensures IsSupported(chainId) <==> chainId == "0x1" || chainId == "0x5" || chainId == "0x89"
    ensures IsSupported(chainId) ==> chainId in KnownNetworks
    ensures chainId in KnownNetworks && !IsSupported(chainId) ==>
              NetworkName(chainId) in {"Ropsten Testnet", "Rinkeby Testnet", "Kovan Testnet", "Polygon Mumbai Testnet"}
  {
  }

  /** `account.substring(0, 6) + "..." + account.substring(account.length - 4)`. */
  function DisplayAccount(account: Address): (shown: string)
    ensures |shown| <= 3 + 2 * |account|
  {
    JsSubstring(account, 0, 6) + "..." + JsSubstring(account, |account| - 4, |account|)
  }

  /** An account of six characters or more (a full address has 42) shows
      its first six and last four characters. */
  lemma DisplayOfLongAccount(account: Address)
    requires |account| >= 6
    ensures DisplayAccount(account) == account[..6] + "..." + account[|account| - 4..]
    ensures |DisplayAccount(account)| == 13
  {
  }

  /** A string of four characters or fewer is shown in full after the
      clamped prefix, since `substring` clamps the negative start to 0. */
  lemma DisplayOfShortAccount(account: Address)
    requires |account| <= 4
    ensures DisplayAccount(account) == account + "..." + account
  {
    assert account[0..|account|] == account;
  }

  /** The footer button: none while disconnected, the switch button when
      the network is unsupported, otherwise the way to the dashboard. */
  datatype FooterAction = SwitchNetwork | ContinueToDashboard

  function Footer(isConnected: bool, networkError: bool): (a: Option<FooterAction>)
    ensures a.None? <==> !isConnected
    ensures a == Some(SwitchNetwork) <==> isConnected && networkError
    ensures a == Some(ContinueToDashboard) <==> isConnected && !networkError
  {
    if !isConnected then None
    else if networkError then Some(SwitchNetwork)
    else Some(ContinueToDashboard)
  }

  /** The page's state. */
  class ConnectWalletPage {
    var networkName: string
    var networkError: bool

    constructor ()
      ensures networkName == "" && !networkError
    {
      networkName := "";
      networkError := false;
    }

    /** `checkNetwork`: with a wallet that answers `eth_chainId`, the name and
        the warning follow the chain; otherwise nothing changes. */
    method CheckNetwork(ext: Option<Extension>)
      modifies this
      ensures ext.None? || ext.value.chainId.None? ==> networkName == old(networkName) && networkError == old(networkError)
      ensures ext.Some? && ext.value.chainId.Some? ==>
                networkName == NetworkName(ext.value.chainId.value)
                && (networkError <==> !IsSupported(ext.value.chainId.value))
    {
      if ext.Some? && ext.value.chainId.Some? {
        var chainId := ext.value.chainId.value;
        networkName := NetworkName(chainId);
        networkError := !IsSupported(chainId);
      }
    }

    /** The effect on the session: the network is checked whenever the
        session is connected with an account. */
    method OnSessionChange(isConnected: bool, account: Option<Address>, ext: Option<Extension>)
      modifies this
      ensures !(isConnected && Truthy(account)) || ext.None? || ext.value.chainId.None? ==>
                networkName == old(networkName) && networkError == old(networkError)
      ensures isConnected && Truthy(account) && ext.Some? && ext.value.chainId.Some? ==>
                networkName == NetworkName(ext.value.chainId.value)
                && (networkError <==> !IsSupported(ext.value.chainId.value))
    {
      if isConnected && Truthy(account) {
        CheckNetwork(ext);
      }
    }

    /** `handleConnect`: the session connects, then the network is checked
        whether or not the connection succeeded. */
    method HandleConnect(session: Web3Provider, ext: Option<Extension>) returns (alerted: bool)
      requires session.Valid()
      modifies this, session`provider, session`signer, session`account, session`isConnected, session`isLoading
      ensures session.Valid()
      ensures alerted <==> ext.None?
      ensures ext.Some? ==> session.State() == AfterConnectWallet(old(session.State()), ext.value)
      ensures ext.Some? && ext.value.chainId.Some? ==>
                networkName == NetworkName(ext.value.chainId.value)
                && (networkError <==> !IsSupported(ext.value.chainId.value))
      ensures ext.None? || ext.value.chainId.None? ==> networkName == old(networkName) && networkError == old(networkError)
    {
      alerted := session.ConnectWallet(ext);
      CheckNetwork(ext);
    }

    /** `handleSwitchNetwork`: asks the wallet for Ethereum Mainnet and, once
        the wallet has switched, checks the network it now reports
        (`after`). A refused request changes nothing. */
    method HandleSwitchNetwork(ext: Option<Extension>, switchAccepted: bool, after: Option<Extension>)
      returns (requested: Option<string>)
      modifies this
      ensures requested.Some? <==> ext.Some?
      ensures requested.Some? ==> requested.value == MainnetChainId
      ensures ext.None? || !switchAccepted || after.None? || after.value.chainId.None? ==>
                networkName == old(networkName) && networkError == old(networkError)
      ensures ext.Some? && switchAccepted && after.Some? && after.value.chainId.Some? ==>
                networkName == NetworkName(after.value.chainId.value)
                && (networkError <==> !IsSupported(after.value.chainId.value))
      ensures ext.Some? && switchAccepted && after.Some? && after.value.chainId == Some(MainnetChainId) ==>
                networkName == "Ethereum Mainnet" && !networkError
    {
      if ext.None? {
        return None;
      }
      requested := Some(MainnetChainId);
      if switchAccepted {
        CheckNetwork(after);
      }
    }
  }
}
