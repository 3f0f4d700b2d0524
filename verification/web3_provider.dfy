/** The wallet session (`frontend/components/web3-provider.ts`): the context
    every page reads, and how `checkConnection`, the `accountsChanged`
    listener and `connectWallet` move it. */
module WalletSession {
  import opened Common

  /** A `BrowserProvider` and a `JsonRpcSigner`; only their identity matters. */
  datatype ProviderHandle = ProviderHandle(id: nat)
  datatype SignerHandle = SignerHandle(id: nat)

  /** The injected wallet (`window.ethereum`) as the session and the
      connect page see it: the provider built over it, what `listAccounts`
      answers (`None`: it throws), whether `eth_requestAccounts` is
      approved, what `getSigner` answers (`None`: it throws) and what
      `eth_chainId` answers (`None`: it throws). */
  datatype Extension = Extension(
    provider: ProviderHandle,
    accounts: Option<seq<Address>>,
    requestApproved: bool,
    signer: Option<SignerHandle>,
    chainId: Option<string>)

  /** The context value. */
  datatype Session = Session(
    provider: Option<ProviderHandle>,
    signer: Option<SignerHandle>,
    account: Option<Address>,
    isConnected: bool,
    isLoading: bool)

  /** The default context and the provider's initial state. */
  function InitialSession(): (s: Session)
    ensures s.provider.None? && s.signer.None? && s.account.None?
    ensures !s.isConnected && !s.isLoading
  {
    Session(None, None, None, false, false)
  }

  /** The session is connected exactly when it has an account. */
  predicate Consistent(s: Session)
  {
    s.isConnected <==> s.account.Some?
  }

  /** `checkConnection`: with an already authorised account the session
      takes the provider, the signer and the first account; otherwise (no
      wallet, no account, or a call that throws) nothing changes. */
  function AfterCheckConnection(s: Session, ext: Option<Extension>): (r: Session)
    ensures r.isLoading == s.isLoading
    ensures r != s ==> ext.Some? && ext.value.accounts.Some? && |ext.value.accounts.value| > 0
                       && ext.value.signer.Some?
    ensures ext.Some? && ext.value.accounts.Some? && |ext.value.accounts.value| > 0 && ext.value.signer.Some? ==>
              r == s.(provider := Some(ext.value.provider), signer := ext.value.signer,
                      account := Some(ext.value.accounts.value[0]), isConnected := true)
  {
    if ext.None? then s
    else if ext.value.accounts.None? || |ext.value.accounts.value| == 0 then s
    else if ext.value.signer.None? then s
    else s.(provider := Some(ext.value.provider), signer := ext.value.signer,
            account := Some(ext.value.accounts.value[0]), isConnected := true)
  }

  /** The `accountsChanged` listener: the first account connects, an empty
      list disconnects. */
  function AfterAccountsChanged(s: Session, accounts: seq<Address>): (r: Session)
    ensures r.provider == s.provider && r.signer == s.signer && r.isLoading == s.isLoading
    ensures |accounts| > 0 ==> r.account == Some(accounts[0]) && r.isConnected
    ensures |accounts| == 0 ==> r.account.None? && !r.isConnected
  {
    if |accounts| > 0 then s.(account := Some(accounts[0]), isConnected := true)
    else s.(account := None, isConnected := false)
  }

  /** `connectWallet` once the wallet is present; the loading flag it raises
      is lowered again however the attempt ends. Provider and signer are
      stored before the first account is read, so an empty account list
      leaves them set while the account stays as it was. */
  function AfterConnectWallet(s: Session, ext: Extension): (r: Session)
    ensures !r.isLoading
    ensures !ext.requestApproved || ext.accounts.None? || ext.signer.None? ==> r == s.(isLoading := false)
    ensures ext.requestApproved && ext.accounts.Some? && ext.signer.Some? ==>
              r.provider == Some(ext.provider) && r.signer == ext.signer
    ensures r.isConnected <==> s.isConnected || (ext.requestApproved && ext.accounts.Some?
                                                && |ext.accounts.value| > 0 && ext.signer.Some?)
    ensures ext.requestApproved && ext.accounts.Some? && |ext.accounts.value| > 0 && ext.signer.Some? ==>
              r.account == Some(ext.accounts.value[0])
    ensures ext.accounts.Some? && |ext.accounts.value| == 0 ==> r.account == s.account
  {
    if !ext.requestApproved || ext.accounts.None? || ext.signer.None? then s.(isLoading := false)
    else
      var withHandles := s.(provider := Some(ext.provider), signer := ext.signer);
      if |ext.accounts.value| == 0 then withHandles.(isLoading := false)
      else withHandles.(account := Some(ext.accounts.value[0]), isConnected := true, isLoading := false)
  }

  /** Every transition keeps the session consistent. */
  lemma CheckConnectionKeepsConsistency(s: Session, ext: Option<Extension>)
    requires Consistent(s)
    ensures Consistent(AfterCheckConnection(s, ext))
  {
  }

  lemma AccountsChangedKeepsConsistency(s: Session, accounts: seq<Address>)
    requires Consistent(s)
    ensures Consistent(AfterAccountsChanged(s, accounts))
  {
  }

  lemma ConnectWalletKeepsConsistency(s: Session, ext: Extension)
    requires Consistent(s)
    ensures Consistent(AfterConnectWallet(s, ext))
  {
  }

  /** Replaying the same `accountsChanged` event changes nothing further,
      so several registered copies of the listener act as one. */
  lemma AccountsChangedIdempotent(s: Session, accounts: seq<Address>)
    ensures AfterAccountsChanged(AfterAccountsChanged(s, accounts), accounts) == AfterAccountsChanged(s, accounts)
  {
  }

  /** A switch of account in the wallet keeps the signer obtained for the
      previous account, and an account announced before any connection
      leaves the session connected without a signer. */
  lemma AccountSwitchKeepsSigner(s: Session, next: Address)
    ensures AfterAccountsChanged(s, [next]).signer == s.signer
    ensures AfterAccountsChanged(s, [next]).account == Some(next)
    ensures s == InitialSession() ==> AfterAccountsChanged(s, [next]).isConnected
                                      && AfterAccountsChanged(s, [next]).signer.None?
  {
  }

  /** The provider component: the session state and the number of
      `accountsChanged` listeners it has registered with the wallet. */
  class Web3Provider {
    var provider: Option<ProviderHandle>
    var signer: Option<SignerHandle>
    var account: Option<Address>
    var isConnected: bool
    var isLoading: bool
    var listeners: nat

    function State(): Session
      reads this
    {
      Session(provider, signer, account, isConnected, isLoading)
    }

    predicate Valid()
      reads this
    {
      Consistent(State())
    }

    constructor ()
      ensures State() == InitialSession() && listeners == 0
      ensures Valid()
    {
      provider := None;
      signer := None;
      account := None;
      isConnected := false;
      isLoading := false;
      listeners := 0;
    }

    method SetState(s: Session)
      modifies this`provider, this`signer, this`account, this`isConnected, this`isLoading
      ensures State() == s
    {
      provider := s.provider;
      signer := s.signer;
      account := s.account;
      isConnected := s.isConnected;
      isLoading := s.isLoading;
    }

    /** The mount effect: a listener is registered when a wallet is present,
        and `checkConnection` runs. */
    method Mount(ext: Option<Extension>)
      requires Valid()
      modifies this
      ensures Valid()
      ensures State() == AfterCheckConnection(old(State()), ext)
      ensures listeners == old(listeners) + (if ext.Some? then 1 else 0)
    {
      CheckConnectionKeepsConsistency(State(), ext);
      SetState(AfterCheckConnection(State(), ext));
      if ext.Some? {
        listeners := listeners + 1;
      }
    }

    /** The wallet emits `accountsChanged`: the registered listeners run
        the same update (several copies act as one, by
        `AccountsChangedIdempotent`); with none registered nothing happens. */
    method OnAccountsChanged(accounts: seq<Address>)
      requires Valid()
      modifies this`provider, this`signer, this`account, this`isConnected, this`isLoading
      ensures Valid()
      ensures listeners == 0 ==> State() == old(State())
      ensures listeners > 0 ==> State() == AfterAccountsChanged(old(State()), accounts)
    {
      if listeners > 0 {
        AccountsChangedKeepsConsistency(State(), accounts);
        SetState(AfterAccountsChanged(State(), accounts));
      }
    }

    /** `connectWallet`: without a wallet the user is alerted and nothing
        changes. */
    method ConnectWallet(ext: Option<Extension>) returns (alerted: bool)
      requires Valid()
      modifies this`provider, this`signer, this`account, this`isConnected, this`isLoading
      ensures Valid()
      ensures alerted <==> ext.None?
      ensures ext.None? ==> State() == old(State())
      ensures ext.Some? ==> State() == AfterConnectWallet(old(State()), ext.value)
    {
      if ext.None? {
        return true;
      }
      alerted := false;
      var before := State();
      isLoading := true;
      ConnectWalletKeepsConsistency(before, ext.value);
      SetState(AfterConnectWallet(before, ext.value));
    }

    /** The effect's cleanup removes every `accountsChanged` listener. */
    method Unmount(hasWallet: bool)
      modifies this`listeners
      ensures hasWallet ==> listeners == 0
      ensures !hasWallet ==> listeners == old(listeners)
    {
      if hasWallet {
        listeners := 0;
      }
    }
  }
}
