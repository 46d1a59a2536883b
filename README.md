# Solarium identity and channel providers in Dafny

This project models the two state machines behind Solarium's user
interface. Solarium is a messenger whose channels live on a ledger and
whose users are identified by decentralised identifiers (DIDs).

- **Identity provider** (`Identity`, in `identity.dfy`). It holds the
  user's `did`, the resolved DID `document` and the `ready` flag. `ready`
  says that a key check found the decryption key on a held document, or
  that an `addKey` call succeeded. The
  model covers the membership test `docHasKey`, the user actions
  `createIdentity` and `addKey`, and the three effects: resolve the
  document when the DID changes, derive a default DID from the wallet
  key, and check the document for the decryption key.
- **Channel provider** (`Channels`, in `channels.dfy`). It holds the
  selected `channel`, the message log `messages`, the loaded address book,
  the stored last-channel address `currentChannelInState` and the stored
  `solariumInitialised` flag. The model covers `setCurrentChannel`,
  `joinPublicChannel`, `joinPublicChannelAndSetDefault`, `post`, the
  subscription callback and the three effects: load the address book,
  restore the last channel, subscribe to the selected channel.
- `Common` (`common.dfy`) holds the optional and result values, the
  JavaScript truthiness of an optional string (`undefined` and `""` are
  both falsy), and `Array.prototype.find`.

Each provider is written twice.

- A value of the provider's state (`IdentityState`, `Session`) with one
  pure transition function per callback or effect. It also has a `Run`
  function that applies a sequence of events in order. Each React effect
  becomes one explicit event, such as "document resolved" or "message
  received".
- A class (`IdentityProvider`, `ChannelProvider`) whose fields are the
  state cells and whose methods perform the writes in the code's order.
  Each method's postcondition says that the new state is the transition
  function applied to the old state.

Lemmas about `Run` state what holds over any sequence of events.

The external calls are not modelled. These are DID resolution and
creation, adding a key to a DID, loading the address book, joining a
channel, and reading from and posting to a channel. Each transition
receives the outcome that its call delivered as a parameter. `post`
returns the transport call it would make. Keys and channel addresses are
their base58 text, so `toBase58` is injective by construction. The
address book is the list of channels joined so far, looked up by name or
by address, first match first.

Three behaviours of the code are worth knowing:

- `ready` is not cleared when the document changes, so it can be true
  while the held document does not list the decryption key. `addKey` sets
  `ready` without resolving the document again (index.tsx:44-48), and a
  later resolution replaces the document without touching `ready`
  (index.tsx:53-58). `Identity.ReadyWithoutListedKey` shows both.
- A resolution that completes after the DID changed is still applied: the
  last completed resolution wins (index.tsx:53-58).
- The default-DID lookup's `catch` swallows every failure, not only
  "No DID found" (index.tsx:68-76).

## Model

| member | source | states |
|---|---|---|
| `Common.Find` | ui/src/service/identity/index.tsx:11 | `find` returns an element that satisfies the predicate and is the first such element; it returns nothing exactly when no element satisfies it |
| `Identity.DocHasKey` | ui/src/service/identity/index.tsx:10-11 | holds exactly when the document has a verification-method list and some entry's `publicKeyBase58` equals the key; a document without the list never has the key |
| `Identity.Created` | ui/src/service/identity/index.tsx:40-42 | a successful creation makes the created document's id the DID; a failed one changes nothing; document and `ready` are never touched |
| `Identity.KeyAdded` | ui/src/service/identity/index.tsx:44-48 | `ready` becomes true exactly when the add-key call succeeded (and a decryption key exists to add); DID and document are untouched |
| `Identity.Resolved` | ui/src/service/identity/index.tsx:52-58 | with the DID unset nothing changes; a successful resolution replaces the document wholesale; a failed one leaves it; DID and `ready` are untouched |
| `Identity.DefaultDidLookedUp` | ui/src/service/identity/index.tsx:60-78 | the DID changes only when the wallet is present and connected, the DID is unset and the lookup succeeded, and then it becomes the resolved document's id; every failure, "No DID found" included, leaves it unset |
| `Identity.KeysChecked` | ui/src/service/identity/index.tsx:80-111 | DID and document are unchanged in every branch; `ready` becomes true exactly when a document and a decryption key are present and the document lists the key; otherwise (no document, wallet disconnected, wallet key listed or not) it is unchanged, so no key is added automatically |
| `Identity.ReadyNeverResets` | ui/src/service/identity/index.tsx:38-106 | once `ready` is true, no sequence of events sets it back to false |
| `Identity.ReadyOnlyAfterKeyCheckOrAddKey` | ui/src/service/identity/index.tsx:44-107 | if `ready` turns true over a sequence of events, one of them was a successful `addKey` or a key check that found the decryption key on the document held at that point |
| `Identity.DocumentOnlyFromResolution` | ui/src/service/identity/index.tsx:53-58 | after any sequence of events the document is the one held before or one delivered by a successful resolution in that sequence |
| `Identity.DidKeptWithoutCreation` | ui/src/service/identity/index.tsx:60-66 | a set DID stays the same over any sequence of events that has no successful `createIdentity` |
| `Identity.ProvisioningScenario` | ui/src/service/identity/index.tsx:40-107 | no DID exists for wallet key `w`; after creation and resolution the DID and document are set, the key check leaves the identity not ready because only `w` is listed, and `addKey` makes it ready |
| `Identity.ReadyWithoutListedKey` | ui/src/service/identity/index.tsx:44-58 | at the end of the provisioning scenario `ready` is true while the document lists only the wallet key, and resolving a document without the decryption key keeps `ready`; so `ready` does not imply that the held document lists the key |
| `Identity.IdentityProvider.constructor` | ui/src/service/identity/index.tsx:35-38 | on mount the DID is the stored one, there is no document and `ready` is false |
| `Identity.IdentityProvider.CreateIdentity` | ui/src/service/identity/index.tsx:40-42 | the new state is `Created` of the old one; the action resolves exactly when the creation call did |
| `Identity.IdentityProvider.AddKey` | ui/src/service/identity/index.tsx:44-48 | the new state is `KeyAdded` of the old one; the action resolves exactly when the add-key call was made and succeeded |
| `Identity.IdentityProvider.ResolveOnDidChange` | ui/src/service/identity/index.tsx:52-58 | the new state is `Resolved` of the old one |
| `Identity.IdentityProvider.LookupDefaultDid` | ui/src/service/identity/index.tsx:60-78 | the new state is `DefaultDidLookedUp` of the old one |
| `Identity.IdentityProvider.CheckKeys` | ui/src/service/identity/index.tsx:80-111 | the new state is `KeysChecked` of the old one |
| `Channels.Switched` | ui/src/service/channels/channel.tsx:45-50 | nothing changes when the new channel is absent or its address is the stored one; otherwise the log is empty, the stored address is the new channel's and the channel is the new one; address book, flag and subscription are untouched |
| `Channels.SwitchIdempotent` | ui/src/service/channels/channel.tsx:45-50 | switching to the same channel twice in a row acts once |
| `Channels.Delivered` | ui/src/service/channels/channel.tsx:108-116 | a message is appended at the tail: the log grows by one and earlier messages keep their order; an empty unit empties the log whatever it held; nothing but the log changes |
| `Channels.LogAppendsInOrder` | ui/src/service/channels/channel.tsx:109-111 | without a clear, the log after a run of deliveries is the old log followed by the delivered messages in arrival order |
| `Channels.LogSinceLastClear` | ui/src/service/channels/channel.tsx:108-115 | after a clear, the log holds exactly the messages delivered since the last clear, whatever came before |
| `Channels.ClearBetweenMessages` | ui/src/service/channels/channel.tsx:108-115 | deliveries `m1`, clear, `m2` show the logs `[m1]`, `[]`, `[m2]` |
| `Channels.Subscribed` | ui/src/service/channels/channel.tsx:105-120 | the effect leaves a live subscription exactly when wallet, connection, channel, DID and decryption key are all present, and then it reads the selected channel; nothing else changes |
| `Channels.AddressBookLoaded` | ui/src/service/channels/channel.tsx:80-91 | the address book is set to the loaded one exactly when wallet, connection, identity readiness, DID and decryption key are present and no book is loaded yet; nothing else changes |
| `Channels.Restored` | ui/src/service/channels/channel.tsx:93-103 | the channel changes exactly when none is selected, the wallet is connected, the identity is ready, a book is loaded, an address is stored and the book resolves it, and then it becomes that channel, whose address is the stored one; the log and stored address are never touched |
| `Channels.PublicChannelJoined` | ui/src/service/channels/channel.tsx:52-68 | it fails with "Load address book first" without a book; it returns the default channel with no join call when the book has it; it fails when the channel is absent and has no public config; otherwise it calls `joinChannel` with that config and passes its outcome on |
| `Channels.Bootstrapped` | ui/src/service/channels/channel.tsx:70-77 | it makes the join call `joinPublicChannel` makes, ends with the address book that call leaves, and resolves exactly when that call resolved, rejecting with its error otherwise; on rejection or with an address stored nothing else changes; when it resolves with no address stored the flag is set and, if the book holds the default channel at a new address, that channel is selected, the log cleared and its address stored, otherwise channel, log and stored address stay |
| `Channels.BootstrapIdempotentWhenJoined` | ui/src/service/channels/channel.tsx:52-77 | bootstrapping twice while already a member of the default channel makes no join call and the second run changes nothing |
| `Channels.StepKeepsConsistent` | ui/src/service/channels/channel.tsx:45-103 | every event keeps the selected channel's address equal to the stored last-channel address |
| `Channels.RunKeepsConsistent` | ui/src/service/channels/channel.tsx:45-103 | the same holds over any sequence of events |
| `Channels.InitialisedNeverResets` | ui/src/service/channels/channel.tsx:43-74 | once the initialised flag is set, no sequence of events clears it |
| `Channels.AddressBookOnlyGrows` | ui/src/service/channels/channel.tsx:52-91 | a loaded address book stays loaded and only gains entries at its end |
| `Channels.ChannelProvider.constructor` | ui/src/service/channels/channel.tsx:38-43 | on mount no channel, no messages, no address book and no subscription; stored address and flag come from storage |
| `Channels.ChannelProvider.SetCurrentChannel` | ui/src/service/channels/channel.tsx:45-50 | the new state is `Switched` of the old one and the channel stays consistent with the stored address |
| `Channels.ChannelProvider.OnMessage` | ui/src/service/channels/channel.tsx:108-116 | the new state is `Delivered` of the old one |
| `Channels.ChannelProvider.SubscribeEffect` | ui/src/service/channels/channel.tsx:105-120 | the new state is `Subscribed` of the old one |
| `Channels.ChannelProvider.LoadAddressBookEffect` | ui/src/service/channels/channel.tsx:80-91 | the new state is `AddressBookLoaded` of the old one |
| `Channels.ChannelProvider.RestoreChannelEffect` | ui/src/service/channels/channel.tsx:93-103 | the new state is `Restored` of the old one |
| `Channels.ChannelProvider.JoinPublicChannel` | ui/src/service/channels/channel.tsx:52-68 | it returns what `PublicChannelJoined` returns and changes nothing but the address book |
| `Channels.ChannelProvider.JoinPublicChannelAndSetDefault` | ui/src/service/channels/channel.tsx:70-77 | the new state, the outcome and the join call are those of `Bootstrapped` |
| `Channels.ChannelProvider.Post` | ui/src/service/channels/channel.tsx:122-126 | it fails with "Posting unavailable." and makes no transport call exactly when wallet, connection, channel, DID or decryption key is missing; otherwise it makes the transport call with the channel, DID, decryption key and text, and the log is untouched |

## Left out

- React rendering, context creation, `useChannel` and `useIdentity`: presentation wiring.
- Effect dependency arrays, promise chaining and async interleaving: each effect or callback is one event, applied whole and in sequence.
- Between a switch and the next run of the subscription effect, the old subscription is still live, as in the code. A message it delivers lands in the fresh log.
- Subscription teardown (`unsubscribe`): the transport resource it releases is not part of this model. Only which channel the live subscription reads is kept.
- `setAlias`: it only forwards to `createUserDetails`, an external call, and writes no state.
- DID resolution, `keyToIdentifier`, DID creation, adding a key, `AddressBookManager.load`, `joinChannel`, `readChannel` and `postToChannel`: external calls, so their outcomes are parameters. A successful `joinChannel` is taken to add the joined channel to the address book, which is what the later lookup by name relies on.
- The address book's decryption, persistence and group/direct distinction: the book is a list of channels.
- Local-storage persistence of the DID, the last channel, the flag and the address book: these are plain fields, and initial values are constructor parameters.
- Keypair generation, base58 encoding and all cryptography: keys and addresses are their base58 text.
- The value of `DEFAULT_CHANNEL`: the constants file is not part of this model. It is a constant named after the lobby the code's comment mentions. No property depends on its value.
- `console.log` calls and the commented-out confirmation and auto-creation paths.
- The message form in `ui/src/components/Post.tsx` and the re-exports in `client/src/index.ts`.
