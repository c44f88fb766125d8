# Sui devnet hub: wallet session and simulated workflows in Dafny

This project models the three small state machines of a client-side Sui
testnet portal, and proves properties about them:

- **The wallet session store** (`WalletContext`). Its state is
  `isConnected`, `address`, `balance`, `network` (devnet or testnet) and
  `connecting`. It also owns the `walletState` entry of local storage.
  It has a startup restore and the operations `connectWallet`,
  `disconnectWallet`, `switchNetwork` and the internal `fetchBalance`.
- **The faucet page** (`Faucet`). A token request is a click, ten ticks of
  an interval that add 10 to the progress, and a settle timeout. The
  settle timeout puts one completed 100-SUI request in front of the history.
- **The NFT mint page** (`NftMint`). The page holds a form (name,
  description, image file and preview). A mint is a click, twenty ticks
  that add 5, and a settle timeout. The settle timeout puts the NFT in
  front of the collection and resets the form.
- **The wallet widget's pure helpers** (`WalletConnect`): the shortened
  address, the network-switch menu item and its label, and the connect
  button.

Every timer and every `await` is a discrete event. The wallet store keeps
its unfinished continuations in a sequence (`pending`). A completion
event names the continuation it resumes by index, so the proofs cover
every completion order. Nothing cancels a pending continuation, as in the
source. Inputs that the code takes from outside become event parameters:

- the digits `Math.random` draws for an address or an NFT id;
- the clock reading at settle time;
- whether `localStorage.setItem` succeeded;
- whether the wallet is connected when a page control is clicked.

Page controls are modelled behind their render and `disabled` rules. A
control that is hidden or disabled cannot be clicked, so such a click
leaves the page unchanged.

`Basics` holds the shared helpers: `Option`, hexadecimal and decimal
digit strings with their round trips, and JavaScript's clamping
`substring`.

In these places `WalletContext.tsx` behaves differently from what its
own messages and comments lead one to expect, and the model follows the
code:

- **A failed connect stays connected.** In `connectWallet` the only
  statement that can throw is `localStorage.setItem`. It runs after the
  address and `isConnected` are already set. So a failed connect leaves
  the session connected, with nothing stored and no balance fetch, even
  though the `Connection Failed` toast it raises suggests a fall back to
  disconnected (`WalletContext.ConnectDelayElapsed`).
- **Restore does not check the address format.** Any truthy stored
  address is restored. Text that does not parse, or that parses to
  `null`, is removed. A parsed entry without an address stays in storage.
- **A second connect can really start.** connectWallet has no guard. The
  widget's button is disabled while connecting, but the connect buttons
  on the dashboard, faucet and mint pages never are
  (`WalletContext.ConnectIsReentrant`).
- **connectWallet stores the network it started with.** Its closure
  captures `network` when it is called. The snapshot it writes records
  that network, even if the network is switched during the delay.
- **Balance order is not fixed in the model.** A connect followed by a
  switch to testnet ends with balance 500 when the two fetches finish in
  the order they started (`WalletContext.ConnectThenSwitchToTestnet`).
  That is the order the real timers give. The model also allows the other
  order, and then the devnet value 1000 lands last.

## Model

| member | source | states |
|---|---|---|
| WalletContext.Startup | src/context/WalletContext.tsx:21-45 | A mount with no entry, a blank entry, or an entry whose address is missing starts disconnected with null address and balance, network devnet, not connecting, and leaves storage as it was. An unparseable entry is removed. A truthy address restores a connection with that address and the stored network (devnet if none), and starts exactly one balance fetch. |
| WalletContext.MockAddress | src/context/WalletContext.tsx:65 | A generated address is `0x` followed by exactly 40 lower-case hexadecimal digits. |
| WalletContext.MockAddressRoundTrip | src/context/WalletContext.tsx:65 | The address format is recognised for every draw, and reading it back gives the digits drawn. |
| WalletContext.ParseMockAddressRoundTrip | src/context/WalletContext.tsx:65 | Every string in the address format is the address built from the digits read back from it. |
| WalletContext.ConnectWallet | src/context/WalletContext.tsx:57-62 | connectWallet sets `connecting` and starts the connection delay, with no guard. One more connect call is then in flight, and nothing else changes. |
| WalletContext.ConnectDelayElapsed | src/context/WalletContext.tsx:62-92 | When the delay elapses, the session is connected with a fresh address in the mock format. If the storage write succeeds, the entry becomes (address, network captured at the call) and a balance fetch that the call awaits starts, with `connecting` still set. If the write throws, nothing is stored and `connecting` is cleared, but the session stays connected. Network and balance are unchanged. |
| WalletContext.FetchCompleted | src/context/WalletContext.tsx:48-55 | A completed fetch sets the balance to 1000 for devnet and 500 for testnet, whatever the address and whatever the session is now. The fetch that connectWallet awaits also clears `connecting`. Nothing else changes. |
| WalletContext.DisconnectWallet | src/context/WalletContext.tsx:95-99 | Disconnect sets disconnected, clears address and balance, and removes the entry. It leaves network, `connecting` and the pending fetches unchanged. |
| WalletContext.SwitchNetwork | src/context/WalletContext.tsx:107-118 | The network is always set. Without a live address nothing else changes. With a live address and a working store, the entry is rewritten with the same address and the new network, and one fetch for the new network is queued. A throwing write skips the fetch. |
| WalletContext.StepPreservesInv | src/context/WalletContext.tsx:33-118 | Every transition keeps these facts: connected exactly when an address is set, and that address is non-empty; a balance is one of the mock values; `connecting` only while a connect call is in flight; a restorable entry only while connected. |
| WalletContext.ReachableInv | src/context/WalletContext.tsx:21-118 | After any mount and any sequence of actions and completions, `isConnected` holds exactly when an address is set, and the other facts above hold too. |
| WalletContext.WrittenSnapshotRestores | src/context/WalletContext.tsx:29-38 | An entry written for an address and network restores that address and network as a connection on the next mount. |
| WalletContext.StaleFetchLandsAfterDisconnect | src/context/WalletContext.tsx:48-55 | A fetch started before disconnect still lands afterwards, so a disconnected session can hold balance 1000. |
| WalletContext.ConnectIsReentrant | src/context/WalletContext.tsx:57-93 | A second connect call is accepted while one is in flight. When the first call finishes, `connecting` is cleared while the second call is still running. |
| WalletContext.ConnectThenSwitchToTestnet | src/context/WalletContext.tsx:107-118 | Connect, then switch to testnet, with fetches finishing in the order they started: the entry holds the connected address with testnet, and the balance ends at 500. |
| StaleBalance.FetchCompletedDropStale | src/context/WalletContext.tsx:48-55 | Corrected fetch completion: the mock balance is applied only while the session is still connected with the fetch's address and network. Otherwise the balance is kept. |
| StaleBalance.DropStaleKeepsBalanceCleared | src/context/WalletContext.tsx:95-99 | With stale results dropped, every reachable disconnected session has a null balance. |
| StaleBalance.DropStaleAfterDisconnect | src/context/WalletContext.tsx:95-99 | The trace that leaves a balance behind in the store as written ends with a null balance under the correction. |
| StaleBalance.DropStaleSwitchEitherOrder | src/context/WalletContext.tsx:118 | Under the correction, a connect followed by a switch to testnet ends with balance 500 whichever fetch lands last. |
| WalletConnect.FormatAddressEmpty | src/components/WalletConnect.tsx:32 | A null or empty address shows as the empty string. |
| WalletConnect.FormatAddressLong | src/components/WalletConnect.tsx:33 | An address of 10 or more characters shows as its first 6 characters, `...` and its last 4: 13 characters in all. |
| WalletConnect.FormatAddressMedium | src/components/WalletConnect.tsx:33 | An address of 4 to 9 characters shows as its first 6 characters (or all of them, if fewer), `...` and its last 4. |
| WalletConnect.FormatAddressShort | src/components/WalletConnect.tsx:33 | An address of 1 to 3 characters shows in full, then `...`, then in full again, because `substring` clamps a negative start to 0. |
| WalletConnect.FormatMockAddress | src/components/WalletConnect.tsx:31-34 | A generated address shows as `0x`, its first four digits, `...` and its last four digits. |
| WalletConnect.ToggleTarget | src/components/WalletConnect.tsx:112 | The menu item targets the other network. |
| WalletConnect.ToggleTwice | src/components/WalletConnect.tsx:112 | Toggling twice gives back the original network. |
| WalletConnect.SwitchLabelNamesTarget | src/components/WalletConnect.tsx:115 | The menu label names the target network ("Testnet" on devnet, "Devnet" on testnet), never the current one. |
| WalletConnect.SwitchFromMenu | src/components/WalletConnect.tsx:110-113 | A click on the menu item always changes the network. |
| WalletConnect.SwitchFromMenuTwice | src/components/WalletConnect.tsx:112 | Two clicks restore the network. With a live address and working storage, the entry again holds the original network. |
| WalletConnect.ConnectButtonDisabledIffConnecting | src/components/WalletConnect.tsx:53-65 | The connect button is disabled exactly while connecting, and exactly then it reads "Connecting...". |
| Faucet.PressRequest | src/pages/Faucet.tsx:28-32 | A click while disconnected, or while a run is in progress (button hidden), does nothing. Otherwise it sets requesting, sets progress to 0, starts the interval, and leaves the history and last request time unchanged. |
| Faucet.NoOverlappingRuns | src/pages/Faucet.tsx:222-241 | While a request is in progress the trigger is not rendered, so a click changes nothing. |
| Faucet.Tick | src/pages/Faucet.tsx:34-38 | Each tick adds exactly 10. The interval stops, handing over to the settle timeout, exactly when progress reaches 100. |
| Faucet.TicksFromStart | src/pages/Faucet.tsx:34-38 | After k ticks of a fresh run the progress is 10k for k up to 10. It is exactly 100 after ten ticks, and further ticks change nothing. |
| Faucet.NewRequest | src/pages/Faucet.tsx:41-49 | A new record is a completed request of 100 stamped with the `new Date()` reading, and its id starts with `req-`. |
| Faucet.RequestIdEncodesClock | src/pages/Faucet.tsx:41-48 | The part of the id after `req-` is decimal digits that read back as the `Date.now()` reading taken for the id; the timestamp is the separate `new Date()` reading. |
| Faucet.Settle | src/pages/Faucet.tsx:39-51 | Settle clears requesting and prepends exactly one completed 100-SUI record, keeping the old history unchanged as the tail. The last request time becomes the new record's timestamp. |
| Faucet.ReachableInv | src/pages/Faucet.tsx:16-62 | On every reachable page, requesting holds exactly while a timer is live, progress is a multiple of 10 within [0, 100], and every history entry is a completed 100-SUI request. |
| Faucet.FullRun | src/pages/Faucet.tsx:28-62 | A click, ten ticks and the settle timeout give progress 100, requesting false, and a history equal to one new completed record followed by the old history. |
| NftMint.EditName | src/pages/NFTMint.tsx:152-158 | The name field changes only while the form is shown and not minting. |
| NftMint.EditDescription | src/pages/NFTMint.tsx:164-170 | The description field changes only while the form is shown and not minting. |
| NftMint.HandleImageChange | src/pages/NFTMint.tsx:38-43 | A change with no file does nothing. A file is stored and its reading starts. |
| NftMint.ReadFinished | src/pages/NFTMint.tsx:44-48 | A finished reading sets the preview to its data URL and nothing else. |
| NftMint.HandleRemoveImage | src/pages/NFTMint.tsx:194-197 | Remove image clears the file and the preview and nothing else. |
| NftMint.HandleMint | src/pages/NFTMint.tsx:51-56 | On a page not already minting, minting does nothing unless connected with a non-empty name and a preview. Otherwise it sets minting, sets progress to 0, and captures name, description and preview; nothing else changes. |
| NftMint.PressMint | src/pages/NFTMint.tsx:239-243 | A click on a disabled mint button does nothing. An enabled one starts a run with the current preview. |
| NftMint.MintButtonGuard | src/pages/NFTMint.tsx:242 | A click changes the page exactly when the button is enabled: connected, name non-empty, preview present, not minting. An enabled click runs the handler. |
| NftMint.Tick | src/pages/NFTMint.tsx:57-61 | Each tick adds exactly 5, and at 100 the interval hands over to the settle timeout with the same draft. |
| NftMint.TicksFromStart | src/pages/NFTMint.tsx:57-61 | After k ticks of a fresh run the progress is 5k for k up to 20. It is exactly 100 after twenty ticks, and further ticks change nothing. |
| NftMint.NftId | src/pages/NFTMint.tsx:67 | The new NFT id is `0x` followed by at most eight lower-case hexadecimal digits. |
| NftMint.NftIdRoundTrip | src/pages/NFTMint.tsx:67 | The digits of the id read back as the random digits drawn. |
| NftMint.Settle | src/pages/NFTMint.tsx:62-80 | Settle prepends exactly one NFT with the name, description and image captured at the click, keeps earlier NFTs in order, resets name and description to "", clears file and preview, and clears minting. |
| NftMint.DraftFixedDuringRun | src/pages/NFTMint.tsx:62-74 | While a mint runs, no event but the settle timeout ends it or changes the captured draft, not even a file reading that lands. The settle timeout records exactly that draft. |
| NftMint.ReachableInv | src/pages/NFTMint.tsx:21-91 | On every reachable page, minting holds exactly while a timer is live, progress is a multiple of 5 within [0, 100], and every minted NFT has a name, an image and an id starting with `0x`. |
| NftMint.FullMint | src/pages/NFTMint.tsx:51-91 | From an enabled button, a click, twenty ticks and the settle timeout give exactly one new NFT holding the form's values in front of the old collection, and a reset form. |

## Findings

| source | as written | input that shows it | evidently intended | confidence | as-written member | corrected member |
|---|---|---|---|---|---|---|
| src/context/WalletContext.tsx:48-55 | A balance fetch writes its result whenever its timer fires. disconnectWallet (lines 95-99) neither cancels it nor guards against it. | Connect, let the connection delay elapse, then disconnect before the 1000 ms balance fetch returns. The session is disconnected but holds balance 1000. | A result for a session that is no longer connected, or that has changed address or network, is dropped. A disconnected session never shows a balance. | medium; not executed | WalletContext.StaleFetchLandsAfterDisconnect | StaleBalance.DropStaleKeepsBalanceCleared |

The corrected store is `StaleBalance.StepDropStale`. It differs from
`WalletContext.Step` only in how a finished fetch is applied. The rest of
the model describes the code as written.

## Left out

- Rendering, Tailwind classes, toasts, clipboard copying, router navigation and date formatting (`toLocaleString`): they have no state to verify.
- The presentational components and the static pages (landing, dashboard, contracts, resources) and the navbar's scroll and menu flags: they hold no workflow logic.
- `useWallet` throwing outside a provider: it is React context plumbing.
- Timer durations. Completions may happen in any order, which allows more orders than the real timers do.
- `JSON.parse` and `FileReader` internals. An entry is classified as blank, unparseable or a parsed record. A chosen file carries the data URL its reading yields.
- Stored values of the wrong type: a truthy non-string address, or a network string other than devnet or testnet. `Snapshot` has a string address and an optional `Network`.
- React render timing. Each user action sees the latest state. Only the continuations' own closures (connect's network, the mint draft) keep old values.
- Timers that keep running after a page unmounts: page state is not kept across navigation.
- Faucet.PressRequest: models the handler only behind the button's render gate. The page has one timer slot, so a second overlapping run cannot be written down.
- NftMint.PressMint: models the handler only behind the button's render and `disabled` gate, for the same reason.
- NftMint.HandleMint: requires a page that is not minting. A second call during a run would start a second interval and settle timeout beside the first, ending in two NFTs and progress past 100; the one timer slot cannot hold that, and the only caller, the mint button, is disabled while minting.
- Strings are sequences of Unicode characters, not of UTF-16 code units as JavaScript's `length` and `substring` count them. `WalletConnect.FormatAddress` and `Basics.Substring` agree with JavaScript on strings without characters outside the Basic Multilingual Plane, which includes every generated address; a restored address with such a character (say `😀abc`) is shortened differently, since JavaScript can split its surrogate pair.
- WalletConnect.FormatAddressMedium: holds for JavaScript only on addresses without characters outside the Basic Multilingual Plane, as above.
- WalletConnect.FormatAddressShort: the same restriction.
- WalletConnect.FormatAddressLong: the same restriction.
- WalletContext.ReachableInv: does not state that a disconnected session has a null balance, because the code does not guarantee it (see Findings).
- The "once every 24 hours" faucet note: it is display text, and nothing enforces a cooldown.
- Balances are integers. The source's numbers are only ever 1000 or 500.
