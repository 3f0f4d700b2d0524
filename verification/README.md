# Property rental platform front end — a Dafny model

The front end lets landlords list properties and tenants rent them. Records
live in three smart contracts: the property registry, the rental registry
and the escrow. Metadata documents live on IPFS. This project models the
logic of six files in Dafny and proves properties of it:

- **Home page listing.** `fetchAllProperties` visits every property id
  `1..total` and assembles a card for each one that is listed. The search
  and tab filter then narrows the cards (module `Listing`).
- **Tenant's rentals page.** Rows come from the tenant's rental ids. The
  deposit status is derived from the escrow balance. A deposit release can
  be requested (module `MyRentals`).
- **Owner's properties page.** Rows come from the owner's property ids,
  with availability and collected rent from the active rental. Rent can be
  withdrawn; delete is a placeholder (module `MyProperties`).
- **Listing form.** Single-field updates, the amenity toggle, `parseInt`,
  image selection, and the submit with its guards in order: wallet, image,
  upload, contract call (module `ListProperty`).
- **Wallet session.** The state machine the provider component runs over
  provider, signer, account, `isConnected` and `isLoading`
  (module `WalletSession`).
- **Connect page.** Network naming, the supported-chain test, the switch
  request and the shortened account (module `ConnectWallet`).

The shared parts are in module `Common` (JavaScript truthiness, `||` on
strings, `includes`, `toLowerCase`, `substring`, dropping `null`s from a
list) and module `Ipfs` (the metadata fetcher, written out identically in
three pages). Module `Chain` holds the contract records the pages read.

How the environment is modelled:

- **Contract reads.** Every read is an input: a map from id to
  `Threw | Null | Got(record)`. An id missing from the map is a read that
  throws.
- **Fetch loops.** Each fetch loop is a method with a loop. It is proved
  equal to a function defined on prefixes of the id list. Each iteration is
  one of abort (the surrounding `catch`), skip (`continue` or `return
  null`) or emit a row.
- **Transactions.** A transaction's outcome is an input:
  `SendFailed | Reverted | Confirmed`.
- **Component state.** The React state of each page is a class whose
  methods update its fields.
- **Inputs from the browser.** Gateway answers, the wallet extension's
  answers (`window.ethereum`), `parseEther` results and `Date` values are
  all inputs.

## Model

| member | source | states |
|---|---|---|
| Common.OrElse | frontend/app/page.tsx:202 | `a \|\| b` on an optional string: `a` when it is truthy (present and non-empty), else `b` |
| Common.ContainsIffOccurs | frontend/app/page.tsx:256-257 | `includes` finds the needle exactly when it occurs at some position of the haystack |
| Common.ToLower | frontend/app/page.tsx:256-257 | `toLowerCase` keeps the length, maps each character, and leaves no ASCII capital |
| Common.JsSubstring | frontend/app/connect-wallet/page.ts:91 | `substring` with in-range, ordered indices is the slice between them; the result is never longer than the string |
| Common.Somes | frontend/app/page.tsx:228-232 | dropping the `null`s keeps exactly the present values and never lengthens the list |
| Ipfs.MetadataRequest | frontend/app/page.tsx:130-140 | no request is made iff the hash is missing, empty or starts with "undefined", or the gateway is not configured; otherwise the URL is gateway + "/ipfs/" + hash |
| Ipfs.FetchMetadata | frontend/app/page.tsx:130-154 | the document is returned exactly when a request was made and the gateway answered it; every failure is `null`, never an exception |
| Ipfs.AmenitiesOf | frontend/app/page.tsx:212-214 | the amenities are the document's array, or empty when there is no document or no array |
| Ipfs.MalformedHashIsNotFetched | frontend/app/my-rentals/page.ts:56-60 | a missing, empty or "undefined…" hash yields no request and `null`, whatever the gateway holds |
| Listing.AssembleEntry | frontend/app/page.tsx:183-223 | an id yields a card iff its property read returned a listed record and its active-rental read did not throw |
| Listing.EntryContents | frontend/app/page.tsx:196-216 | a card carries the record's id, location and hash; it is available iff the active rental id is 0; without metadata it gets the placeholder title and image and no amenities |
| Listing.CardPlaceholders | frontend/app/page.tsx:202-214 | a missing or empty title becomes "Property Title Missing", a missing image "/placeholder.svg", a non-array amenities field the empty list |
| Listing.Results | frontend/app/page.tsx:181-228 | one entry per id `1..n`, in id order, each that id's assembled entry |
| Listing.FetchResults | frontend/app/page.tsx:181-226 | the loop over `1..totalProperties` produces exactly `totalProperties` entries, entry `k` being id `k+1`'s |
| Listing.ListingMembers | frontend/app/page.tsx:228-232 | a card is in the listing iff it is the card of some surviving id in `1..n` |
| Listing.ListingAscending | frontend/app/page.tsx:181-232 | the listed cards have strictly ascending ids, each in `1..n` and surviving (when records carry their own id) |
| Listing.ListingIds | frontend/app/page.tsx:181-232 | an id has a card iff it lies in `1..n` and survives |
| Listing.FilterProperties | frontend/app/page.tsx:254-264 | a card is shown iff it matches the search and the tab's availability condition; the result is never longer |
| Listing.FilterKeepsOrder | frontend/app/page.tsx:254 | the filtered cards are a subsequence of the cards |
| Listing.SearchMeansOccurrence | frontend/app/page.tsx:255-257 | a card matches iff the lower-cased term occurs in the lower-cased title or location |
| Listing.EmptySearchShowsAll | frontend/app/page.tsx:255-259 | the empty term on the "all" tab shows every card, in order |
| Listing.UnknownTabIsAll | frontend/app/page.tsx:259-263 | any tab other than "all", "available" and "rented" filters as "all" |
| Listing.TabsPartitionAll | frontend/app/page.tsx:259-261 | the "available" and "rented" tabs together hold each card of the "all" tab exactly as often |
| Listing.HomePage.constructor | frontend/app/page.tsx:125-128 | empty search, tab "all", no cards, loading |
| Listing.HomePage.FetchAllProperties | frontend/app/page.tsx:156-252 | without a provider nothing changes; otherwise loading ends false and the cards become the listing of `1..total`, or stay as they were when the total could not be read |
| Listing.HomePage.SetSearchTerm | frontend/app/page.tsx:125 | the search term takes the new value |
| Listing.HomePage.SetActiveTab | frontend/app/page.tsx:126 | the tab takes the new value |
| Listing.HomePage.FilteredProperties | frontend/app/page.tsx:254-264 | the grid shows exactly the stored cards that pass the current search and tab |
| Listing.AvailableTabOfPair | frontend/app/page.tsx:259-260 | with no search, the "available" tab keeps a free card and drops a rented one |
| Listing.TwoPropertyScenario | frontend/app/page.tsx:181-264 | two listed properties, the second rented, list as ids 1 and 2 in order, and only the first shows on "available" |
| MyRentals.DepositStatusOf | frontend/app/my-rentals/page.ts:123-129 | Released iff the escrow balance is 0; ReleaseRequested iff balance non-zero and release requested; Held otherwise; never Disputed |
| MyRentals.FormatDate | frontend/app/my-rentals/page.ts:80-83 | "N/A" iff the timestamp is 0; otherwise a locale date of timestamp × 1000 milliseconds |
| MyRentals.EndedRentalKeptAsWritten | frontend/app/my-rentals/page.ts:115 | the filter as written ignores the rental's state: an ended rental of the account is kept where the intended filter skips it |
| MyRentals.RentalStep | frontend/app/my-rentals/page.ts:111-146 | a row is emitted only for a rental read that returned a rental passing the filter, and carries that rental id; a falsy read or a rental the filter rejects is skipped (as written only another account's rental is rejected, under the intended filter also an ended one) |
| MyRentals.AfterPropertyRead | frontend/app/my-rentals/page.ts:119-145 | once the property read returned, the iteration never skips: it emits the rental's row or aborts on a failed escrow read |
| MyRentals.SelectRentals | frontend/app/my-rentals/page.ts:109-146 | the loop's result, for either filter, has at most one row per visited id |
| MyRentals.AbortIsFinal | frontend/app/my-rentals/page.ts:149-156 | once a read in the loop has thrown, no later id changes the outcome: the whole fetch fails |
| MyRentals.CollectRentals | frontend/app/my-rentals/page.ts:109-146 | for either filter, the loop returns exactly the rows of the prefix-wise definition, or `None` when a read threw |
| MyRentals.RowsBelongToTenant | frontend/app/my-rentals/page.ts:111-143 | every row is a listed id's rental of the account that passed the filter (under the intended filter, one that has not ended), with its status derived from its own escrow balance and request flag, never Disputed, and its next payment 30 days after `paidUntil` |
| MyRentals.RowsFollowIdOrder | frontend/app/my-rentals/page.ts:111-146 | the rows' rental ids are a subsequence of the tenant's id list |
| MyRentals.EveryActiveRentalIsShown | frontend/app/my-rentals/page.ts:111-146 | when no read fails, every rental in the list that passes the filter has a row: as written every rental of the account, under the intended filter every running one |
| MyRentals.EndedRentalShownAsWritten | frontend/app/my-rentals/page.ts:109-146 | a list holding one ended rental of the account yields exactly one row, for that rental, as the page is written, and no row under the intended filter |
| MyRentals.RowFallbacks | frontend/app/my-rentals/page.ts:135-142 | title falls back from metadata title to property location to "Property"; location to "Unknown Location"; next payment is `paidUntil` + 2592000 |
| MyRentals.MyRentalsPage.constructor | frontend/app/my-rentals/page.ts:51-54 | no rows, loading, not releasing, no selection |
| MyRentals.MyRentalsPage.FetchRentals | frontend/app/my-rentals/page.ts:85-157 | without signer, account or provider nothing changes; otherwise loading ends false and the rows are those the filter as written selects (ended rentals of the account included), or the previous ones when a read threw |
| MyRentals.MyRentalsPage.SyncWithWallet | frontend/app/my-rentals/page.ts:159-168 | connected with signer, account and provider, the page fetches (the rows become those of `FetchRentals`, loading ends false); disconnecting clears the rows and stops loading; connected without signer, account or provider changes nothing |
| MyRentals.MyRentalsPage.HandleReleaseDeposit | frontend/app/my-rentals/page.ts:170-214 | the release is requested for the row's rental iff there is a signer and an account and the status is Held; a refused request changes nothing; otherwise the flags end cleared, and only a confirmed request refetches |
| MyProperties.ActiveRentalId | frontend/app/my-properties/page.ts:113-114 | the rental id is present iff the contract's answer is positive, and is that answer |
| MyProperties.OwnedStep | frontend/app/my-properties/page.ts:107-137 | a row is emitted only for a listed property and carries its id; a falsy or unlisted record is skipped |
| MyProperties.AfterListedRead | frontend/app/my-properties/page.ts:112-136 | for a listed property the iteration never skips: it emits its row or aborts on a failed read |
| MyProperties.SelectOwned | frontend/app/my-properties/page.ts:105-137 | at most one row per visited id |
| MyProperties.OwnedAbortIsFinal | frontend/app/my-properties/page.ts:140-147 | once a read in the loop has thrown, the whole fetch fails |
| MyProperties.CollectOwnedProperties | frontend/app/my-properties/page.ts:105-137 | the loop returns exactly the rows of the prefix-wise definition, or `None` when a read threw |
| MyProperties.RowsAreListedProperties | frontend/app/my-properties/page.ts:107-136 | every row is a listed property of the owner's list with its record's location and price; available iff it has no active rental; rent collected is that rental's escrow balance (0 without one); renter and rent due are never set |
| MyProperties.RowsFollowOwnerOrder | frontend/app/my-properties/page.ts:107-137 | the rows' ids are a subsequence of the owner's id list |
| MyProperties.EveryListedPropertyIsShown | frontend/app/my-properties/page.ts:107-137 | when no read fails, every listed property in the owner's list has a row |
| MyProperties.EscrowUnreadWithoutRental | frontend/app/my-properties/page.ts:116-119 | without an active rental the escrow is not consulted: the iteration is the same whatever the escrow holds, and the row is available with 0 collected |
| MyProperties.OwnedRowFallbacks | frontend/app/my-properties/page.ts:123-132 | title falls back to "Untitled Property", image to "/placeholder.svg"; area is the metadata's |
| MyProperties.MyPropertiesPage.constructor | frontend/app/my-properties/page.ts:54-57 | no rows, loading, not withdrawing, no selection |
| MyProperties.MyPropertiesPage.FetchProperties | frontend/app/my-properties/page.ts:82-148 | without signer, account or provider nothing changes; otherwise loading ends false and the rows are the selected rows, or the previous ones when a read threw |
| MyProperties.MyPropertiesPage.SyncWithWallet | frontend/app/my-properties/page.ts:150-159 | connected with signer and account fetches; disconnecting clears the rows and stops loading; otherwise nothing changes |
| MyProperties.MyPropertiesPage.HandleWithdrawRent | frontend/app/my-properties/page.ts:161-202 | rent is withdrawn for the row's rental iff there is a signer, an account and an active rental; a refused request changes nothing; otherwise the flags end cleared, and only a confirmed withdrawal refetches |
| MyProperties.MyPropertiesPage.HandleDeleteProperty | frontend/app/my-properties/page.ts:205-221 | only the not-implemented warning is shown; nothing changes |
| ListProperty.InitialForm | frontend/app/list-property/page.ts:56-68 | every field empty except the minimum rental period "3"; no amenities |
| ListProperty.WithField | frontend/app/list-property/page.ts:87-96 | the named field takes the value; every other field and the amenities stay |
| ListProperty.FormExtensionality | frontend/app/list-property/page.ts:56-68 | a form is determined by its ten fields and its amenities |
| ListProperty.WithFieldLaws | frontend/app/list-property/page.ts:87-96 | writing a field's own value back changes nothing; of two writes to one field the later wins |
| ListProperty.Without | frontend/app/list-property/page.ts:76 | the filter removes every occurrence of the amenity, keeps the others in order, and changes nothing when it is absent |
| ListProperty.ToggleAmenity | frontend/app/list-property/page.ts:70-85 | a present amenity is removed everywhere, an absent one appended at the end; other amenities' membership is unchanged |
| ListProperty.WithoutKeepsNoDuplicates | frontend/app/list-property/page.ts:76 | removing an amenity keeps a duplicate-free list duplicate-free |
| ListProperty.ToggleKeepsNoDuplicates | frontend/app/list-property/page.ts:70-85 | the toggle keeps the amenity list duplicate-free |
| ListProperty.ToggleAbsentTwice | frontend/app/list-property/page.ts:70-85 | toggling an absent amenity twice restores the list |
| ListProperty.TogglePresentTwice | frontend/app/list-property/page.ts:70-85 | toggling a present amenity twice moves it to the end |
| ListProperty.TrimStart | frontend/app/list-property/page.ts:135 | `parseInt`'s leading-blank skip leaves a text that does not start with a blank |
| ListProperty.TrimStartIsSuffix | frontend/app/list-property/page.ts:135 | what the skip leaves is a suffix of the text, and everything skipped is a blank |
| ListProperty.DigitPrefixIsLongestRun | frontend/app/list-property/page.ts:135 | the digits read are a prefix of the text, all decimal digits, and stop before the first non-digit |
| ListProperty.ParseInt | frontend/app/list-property/page.ts:135-137 | `parseInt(s, 10)` is `NaN` iff no digit follows the blanks and the sign |
| ListProperty.DecimalString | frontend/app/list-property/page.ts:135-137 | a number's decimal notation is a non-empty run of digits |
| ListProperty.DecimalValue | frontend/app/list-property/page.ts:135-137 | the digits of a number's decimal notation have that number's value |
| ListProperty.ParseDigitsThen | frontend/app/list-property/page.ts:135-137 | a run of digits followed by a non-digit parses as the run's value |
| ListProperty.ParseDecimal | frontend/app/list-property/page.ts:180-182 | `parseInt` reads back a number written in decimal, also when followed by a non-digit (so "2.5" is 2) |
| ListProperty.ParseNegative | frontend/app/list-property/page.ts:135-137 | a minus sign before a number's decimal notation (and any non-digit after it) reads as the negated number |
| ListProperty.ParseEmptyIsNaN | frontend/app/list-property/page.ts:135-137 | the empty string, a blank and a bare sign parse as `NaN` |
| ListProperty.AvailableFromTimestamp | frontend/app/list-property/page.ts:170-171 | the timestamp is the floor of milliseconds / 1000, and `NaN` for an invalid date |
| ListProperty.UploadedHash | frontend/app/list-property/page.ts:152-158 | the upload counts iff the response is ok, the body is JSON with `success` and a non-empty metadata hash; the hash is that one |
| ListProperty.UploadError | frontend/app/list-property/page.ts:155 | the failure message is the body's error, or the fixed upload-failure text; a failed upload with a JSON body ends the submit with this message |
| ListProperty.BaseMetadataOf | frontend/app/list-property/page.ts:132-140 | the uploaded metadata carries the form's title, description and amenities and the parsed counts |
| ListProperty.ListPropertyPage.constructor | frontend/app/list-property/page.ts:53-68 | the initial form, not submitting, no image and no preview |
| ListProperty.ListPropertyPage.HandleAmenitiesChange | frontend/app/list-property/page.ts:70-85 | only the amenities change, by the toggle |
| ListProperty.ListPropertyPage.HandleChange | frontend/app/list-property/page.ts:87-96 | the form becomes the single-field update |
| ListProperty.ListPropertyPage.HandleImageUpload | frontend/app/list-property/page.ts:98-104 | the first chosen file becomes the image with its preview URL; an empty choice changes nothing |
| ListProperty.ListPropertyPage.RemoveImage | frontend/app/list-property/page.ts:106-111 | both the file and the preview are cleared |
| ListProperty.ListPropertyPage.HandleSubmit | frontend/app/list-property/page.ts:113-208 | a connect prompt iff the wallet, signer or account is missing; an image prompt iff connected without an image; the metadata is uploaded iff connected with an image; a failed upload (with its message) makes no contract call; `listProperty` receives the form's values and the uploaded metadata hash last; listed iff every step succeeded; past the guards `isSubmitting` ends false |
| WalletSession.InitialSession | frontend/components/web3-provider.ts:15-22 | no provider, signer or account; not connected; not loading |
| WalletSession.AfterCheckConnection | frontend/components/web3-provider.ts:34-51 | with an authorised account and a signer the session takes the provider, signer and first account and connects; otherwise it is unchanged; loading never moves |
| WalletSession.AfterAccountsChanged | frontend/components/web3-provider.ts:57-65 | a non-empty list connects its first account, an empty one disconnects; provider, signer and loading are untouched |
| WalletSession.AfterConnectWallet | frontend/components/web3-provider.ts:75-92 | loading ends false; a refused request or a throwing call changes nothing else; otherwise provider and signer are set, and the first account connects when there is one |
| WalletSession.CheckConnectionKeepsConsistency | frontend/components/web3-provider.ts:40-46 | `checkConnection` keeps "connected iff an account is set" |
| WalletSession.AccountsChangedKeepsConsistency | frontend/components/web3-provider.ts:57-65 | the `accountsChanged` handler keeps "connected iff an account is set" |
| WalletSession.ConnectWalletKeepsConsistency | frontend/components/web3-provider.ts:84-87 | `connectWallet` keeps "connected iff an account is set" |
| WalletSession.AccountsChangedIdempotent | frontend/components/web3-provider.ts:57-65 | handling the same event twice is handling it once |
| WalletSession.AccountSwitchKeepsSigner | frontend/components/web3-provider.ts:57-65 | an account switch keeps the previous signer; an account announced before any connection connects without a signer |
| WalletSession.Web3Provider.constructor | frontend/components/web3-provider.ts:27-31 | the initial session, no listener |
| WalletSession.Web3Provider.Mount | frontend/components/web3-provider.ts:33-66 | the session moves by `checkConnection`; one listener is added when a wallet is present; consistency is kept |
| WalletSession.Web3Provider.OnAccountsChanged | frontend/components/web3-provider.ts:57-65 | with a listener registered the session moves by the handler, otherwise not at all |
| WalletSession.Web3Provider.ConnectWallet | frontend/components/web3-provider.ts:75-96 | without a wallet the user is alerted and nothing changes; otherwise the session moves by `connectWallet` |
| WalletSession.Web3Provider.Unmount | frontend/components/web3-provider.ts:68-72 | with a wallet every `accountsChanged` listener is removed |
| ConnectWallet.NetworkName | frontend/app/connect-wallet/page.ts:32-42 | a known chain id gets its name, any other "Chain ID: " + id; the name is never empty |
| ConnectWallet.SupportedNetworks | frontend/app/connect-wallet/page.ts:45-46 | exactly chains 0x1, 0x5 and 0x89 pass; the other named chains are the Ropsten, Rinkeby, Kovan and Mumbai test networks |
| ConnectWallet.DisplayAccount | frontend/app/connect-wallet/page.ts:91 | the shortened account is at most 3 + twice the account's length |
| ConnectWallet.DisplayOfLongAccount | frontend/app/connect-wallet/page.ts:91 | an account of 6 or more characters shows its first six, "...", its last four: 13 characters |
| ConnectWallet.DisplayOfShortAccount | frontend/app/connect-wallet/page.ts:91 | an account of at most four characters is shown whole on both sides of "..." |
| ConnectWallet.Footer | frontend/app/connect-wallet/page.ts:141-152 | no button while disconnected; the switch button iff connected on an unsupported network; otherwise the dashboard button |
| ConnectWallet.ConnectWalletPage.constructor | frontend/app/connect-wallet/page.ts:16-17 | empty network name, no warning |
| ConnectWallet.ConnectWalletPage.CheckNetwork | frontend/app/connect-wallet/page.ts:26-51 | with a wallet that answers the chain id, the name and warning follow it; otherwise nothing changes |
| ConnectWallet.ConnectWalletPage.OnSessionChange | frontend/app/connect-wallet/page.ts:19-24 | connected with an account and a wallet that answers the chain id, the name and warning follow it; otherwise nothing changes |
| ConnectWallet.ConnectWalletPage.HandleConnect | frontend/app/connect-wallet/page.ts:53-56 | the session moves by `connectWallet`, then, whether or not it connected, the name and warning follow the wallet's chain id; without a wallet or a chain id they stay |
| ConnectWallet.ConnectWalletPage.HandleSwitchNetwork | frontend/app/connect-wallet/page.ts:58-72 | with a wallet, chain 0x1 is requested; after an accepted switch the name and warning follow the chain the wallet then reports (on 0x1: "Ethereum Mainnet", no warning); a refused switch, or no chain id, changes nothing |

## Left out

- **Ether amounts.** They stay in wei. `formatEther`, `parseFloat` and `parseEther` are not modelled. `parseEther`'s result (or its exception) is an input to `HandleSubmit`.
- **Dates.** `new Date(...).getTime()` and `toLocaleDateString` are not modelled. The date's epoch milliseconds (or `NaN`) is an input, and `FormatDate` yields the locale date's milliseconds.
- Common.ToLower: maps the ASCII letters only, not the full Unicode case mapping of `toLowerCase`.
- ListProperty.IsSpace: covers the ASCII blanks, the no-break space and the byte-order mark, not every Unicode space separator that `parseInt` skips.
- ListProperty.ParseInt: does not model the loss of precision of numbers beyond 2^53.
- **Concurrency.** `Promise.all` runs the per-id closures concurrently. The model evaluates them in id order against one snapshot, so reads that interleave with chain updates are not modelled.
- **Un-awaited work.** The refetch after a confirmed transaction and `checkNetwork` after connecting are not awaited. The model runs them to completion inside the handler, so events that arrive in between are not modelled.
- **Deep clone.** The `JSON.parse(JSON.stringify(...))` clone of the cards is the identity on these plain records. It is not modelled.
- **Unknown form fields.** `handleChange` with a `name` that is not one of the ten form fields adds a new key to the form. The model admits only the ten fields.
- **DOM reset.** `removeImage` also clears the DOM file input. That step is not modelled.
- **Presentation.** The following are not modelled: toasts, `console` output, `alert`, the router and the 2-second redirect timer, JSX rendering, and the transaction hash shown in toasts.
- **Request payload.** The image file is not modelled, and neither is the multipart encoding of the upload request. Only the metadata sent and the answer's fields are modelled.
- **Other files.** These are not part of this model: the upload API route, the navigation bar, the property detail page, the privacy and terms pages, the card component and the configuration module. The contracts and their ABI files are not part of this model either: every contract read and transaction is an input.
- WalletSession.AfterConnectWallet: models `getSigner`'s answer as an independent input. In ethers v6 `getSigner` itself throws when there is no account. So the "empty account list with a signer" branch, where provider and signer are stored but no account is set, may not arise in practice.
- WalletSession.Web3Provider.Mount: applies `checkConnection`'s result at mount time. It does not model an `accountsChanged` event arriving while `listAccounts` is pending.
- ListProperty.ListPropertyPage.HandleSubmit: on the connect-prompt path the page also awaits `connectWallet()`. That moves the wallet session as `WalletSession.Web3Provider.ConnectWallet` states; the submit itself does not call it, and the page's own state does not change.
- **Handler guards.** When a guard returns early in `handleReleaseDeposit`, `handleWithdrawRent` or `handleSubmit`, the flags (`isReleasing`, `isWithdrawing`, `isSubmitting`) keep their previous values: the guard runs before the flag is set and outside the `finally` that clears it. So `isSubmitting` is false after every submit only when it was false before.

## Findings

| source | as written | input that shows it | evidently intended | confidence | as-written member | corrected member |
|---|---|---|---|---|---|---|
| frontend/app/my-rentals/page.ts:115 | `rentalDetails.state === 2` compares the decoded state, a `bigint` in ethers v6, with the number `2`, so it never holds | a rental of the account with state 2 (Ended): the as-written filter keeps it (`EndedRentalKeptAsWritten`) and the page lists the ended rental among the tenant's rentals | skip ended rentals, comparing by value (`state == 2n` or `Number(state) === 2`) | medium, not executed | MyRentals.EndedRentalShownAsWritten | MyRentals.RowsBelongToTenant |
