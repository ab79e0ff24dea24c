# PGPEncrypt session model

A Dafny model of the `PGPEncrypt` BetterDiscord plugin (`DiscordPGP.plugin.js`). The plugin
adds end-to-end OpenPGP encryption to Discord. It holds four session fields:

- `encryptionEnabled`
- `passphrase`
- `publicKey`
- `privateKey`

On the send path it replaces the outgoing message content with ciphertext when the composer
toggle is on. A context-menu action decrypts messages that carry an armored PGP message,
asking for the passphrase first if none is held. The settings panel edits the two armored
keys, or generates a new Curve25519 pair, and persists the keys in the host's plugin-data store.

The model is imperative where the plugin is. `Plugin.PGPEncrypt` is a class with the four
fields and a `Store`. It has one method per handler, and each method's frame names exactly the
fields that handler assigns. The send, decrypt, generation and store methods are proved
against pure functions:

- `SendPath.BeforeSend` for the send hook;
- `DecryptFlow.DecryptStep` and `DecryptFlow.Report` for decryption;
- `Settings.Generation` for key generation;
- `Persistence.SavedKeys` for the store.

The guarded properties are proved about those functions. Module `Scenarios` composes the
handlers the way a user drives them.

Modelling choices:

- OpenPGP is abstract (`OpenPgp.Library`). It is a `loaded` flag (is `window.openpgp` defined) plus
  three arbitrary functions that may succeed or fail, so every result holds for any library.
  The randomness of key generation is an `entropy` parameter.
- The persistence store (`PluginUtilities.loadData`/`saveData`) is a class `Persistence.Store`
  holding a map from (namespace, field) to string. It is passed to the constructor.
- Toasts and modals are returned as a list of `Host.Effect`s, in the order they are requested.
- JavaScript falsiness is explicit. An empty string counts as a missing key. A `null` or empty
  passphrase counts as missing (`Js.Falsy`).
- `ShowDecryptedModal(None)` stands for the prompt path. There, `decryptMessage` returns
  `undefined`, so its caller also opens an empty "Decrypted Message" modal behind the prompt.
  The model keeps this behaviour (`DecryptFlow.Report`).

Notes on the plugin's own behaviour, all kept by the model:

- When encryption fails, the plugin still sends the plaintext, with an error toast; it does not block the send.
- Pressing Cancel keeps the passphrase typed so far (it is assigned on every keystroke).
- A passphrase the library rejects stays in the session, so later attempts never prompt
  again until `onStop`.
- Pressing Decrypt with nothing typed prompts again.
- Key generation without a passphrase is refused before any library call.

## Model

| member | source | states |
|---|---|---|
| `Plugin.PGPEncrypt.constructor` | DiscordPGP.plugin.js:43-49 | a fresh plugin has encryption off, a null passphrase and empty public and private keys |
| `Plugin.PGPEncrypt.OnStart` | DiscordPGP.plugin.js:51-57 | start-up loads each key from the store, defaulting to the empty string, and touches no other field |
| `Plugin.PGPEncrypt.OnStop` | DiscordPGP.plugin.js:59-64 | stopping nulls the passphrase; keys, toggle and store are left untouched (frame) |
| `Plugin.PGPEncrypt.LoadKeys` | DiscordPGP.plugin.js:79-82 | each key becomes the persisted value, or `""` when that value is absent or falsy; only the two key fields change |
| `Plugin.PGPEncrypt.SaveKeys` | DiscordPGP.plugin.js:84-87 | the store afterwards is the old store with exactly the public and private key entries overwritten by the current keys |
| `Persistence.Store.LoadData` | DiscordPGP.plugin.js:80-81 | reading an entry gives its stored string, or undefined exactly when it was never written |
| `Persistence.Store.SaveData` | DiscordPGP.plugin.js:85-86 | writing one (namespace, field) entry changes that entry only |
| `Persistence.SavedKeys` | DiscordPGP.plugin.js:84-87 | after a save both key entries hold the keys; every other entry, so anything but the keys (the passphrase included), is as before |
| `Persistence.LoadAfterSave` | DiscordPGP.plugin.js:79-87 | loading after saving restores both keys unchanged, the empty key included |
| `Js.OrEmpty` | DiscordPGP.plugin.js:80-81 | defaulting a loaded value to `""` with a logical or gives the empty string exactly when the value is falsy, and otherwise the value itself |
| `Plugin.PGPEncrypt.ToggleEncryption` | DiscordPGP.plugin.js:225-231 | the toggle flips `encryptionEnabled`, no other field changes (frame), and the toast names the new state |
| `Scenarios.SaveThenLoad` | DiscordPGP.plugin.js:79-87 | on the plugin object, `saveKeys` followed by `loadKeys` leaves both keys, the passphrase and the toggle as they were, with the store holding exactly the two saved keys |
| `Scenarios.ToggleTwice` | DiscordPGP.plugin.js:225-231 | toggling twice restores the mode and leaves keys, passphrase and store as they were |
| `SendPath.EncryptContent` | DiscordPGP.plugin.js:119-126 | encrypting always fails with "No public key configured" when the public key is empty, fails when the library is missing, and otherwise is exactly the library's encryption result under the public key |
| `Plugin.PGPEncrypt.EncryptMessageSync` | DiscordPGP.plugin.js:119-126 | the method computes `EncryptContent` for the current public key and changes nothing |
| `SendPath.BeforeSend` | DiscordPGP.plugin.js:102-116 | identity when encryption is off or the library is missing; every encryption failure, certainly the empty-key one, sends the original arguments as plaintext with the failure toast; on success only `args[1].content` changes, to the ciphertext, with the channel id and every other argument and message field preserved |
| `SendPath.NeverBlocksOrSilentlyDrops` | DiscordPGP.plugin.js:102-116 | the hook never withholds a send: the arguments pass unchanged or only the content was encrypted, and it requests at most the failure toast |
| `Plugin.PGPEncrypt.BeforeSendMessage` | DiscordPGP.plugin.js:100-117 | the in-place hook leaves `args` as `BeforeSend` says and mutates no plugin field or store entry (frame) |
| `Scenarios.FreshPluginSendsUnchanged` | DiscordPGP.plugin.js:43-49 | a fresh plugin sends any argument list as it is, with no effect |
| `Scenarios.EnabledWithoutKeySendsPlaintext` | DiscordPGP.plugin.js:102-120 | with no keys and encryption on, the message goes out as plaintext with the "Encryption failed! Sent as plaintext" toast |
| `DecryptFlow.DecryptStep` | DiscordPGP.plugin.js:128-149 | with an empty private key decryption fails before the passphrase is consulted; with a key but a falsy passphrase it takes the prompt path; otherwise the outcome is the library's decryption with that key and passphrase |
| `DecryptFlow.GuardsPrecedeLibrary` | DiscordPGP.plugin.js:128-130 | on the missing-key and prompt paths the outcome does not depend on the library, so no crypto call is made |
| `DecryptFlow.SubmittedPassphraseReachesLibrary` | DiscordPGP.plugin.js:130-146 | a keyed attempt prompts while no passphrase is held, and once a non-empty one is typed it yields the library's decryption result |
| `Plugin.PGPEncrypt.DecryptMessage` | DiscordPGP.plugin.js:128-149 | the method computes `DecryptStep` and writes no field, so no decrypt outcome clears the passphrase |
| `DecryptFlow.Report` | DiscordPGP.plugin.js:247-253 | a caller shows the plaintext only after a successful decryption; it shows the failure toast when decryption throws; on the prompt path it opens the prompt and an empty decrypted modal |
| `Plugin.PGPEncrypt.DecryptMenuAction` | DiscordPGP.plugin.js:247-254 | the context-menu action requests the effects `Report` gives for the current `decryptMessage` outcome, changing no field |
| `Plugin.PGPEncrypt.PromptPassphraseChange` | DiscordPGP.plugin.js:157-162 | each keystroke overwrites the passphrase with the text typed so far and changes nothing else |
| `Plugin.PGPEncrypt.PromptCancel` | DiscordPGP.plugin.js:165-168 | Cancel only closes the prompt; the passphrase typed so far is kept (no field is written) |
| `Plugin.PGPEncrypt.PromptDecrypt` | DiscordPGP.plugin.js:169-180 | Decrypt closes the prompt and then reports a fresh `decryptMessage` attempt with the current key and passphrase |
| `Scenarios.UnlockThenDecrypt` | DiscordPGP.plugin.js:128-180 | prompting, typing, cancelling and then submitting leaves the typed passphrase in the session and hands it to the library, with the keys and toggle unchanged |
| `Scenarios.RejectedPassphraseSticks` | DiscordPGP.plugin.js:59-60 | a rejected passphrase is kept, so the next attempt fails the same way without prompting; only `onStop` clears it, leaving keys and toggle untouched |
| `Armor.Includes` | DiscordPGP.plugin.js:242 | `s.includes(pat)` holds exactly when `pat` occurs in `s` at some index |
| `Armor.OffersDecrypt` | DiscordPGP.plugin.js:241-242 | "Decrypt PGP Message" is offered exactly when the content contains `-----BEGIN PGP MESSAGE-----` |
| `Armor.ArmoredContentIsOffered` | DiscordPGP.plugin.js:242 | content holding the armor header anywhere is offered for decryption |
| `Armor.ShortContentIsNotOffered` | DiscordPGP.plugin.js:242 | content shorter than the armor header is never offered |
| `Plugin.PGPEncrypt.PublicKeyChange` | DiscordPGP.plugin.js:279-282 | editing the public key sets it and persists both keys at once; the private key, passphrase and toggle are unchanged (frame) |
| `Plugin.PGPEncrypt.PrivateKeyChange` | DiscordPGP.plugin.js:290-293 | editing the private key sets it and persists both keys at once; the public key, passphrase and toggle are unchanged (frame) |
| `Settings.Generation` | DiscordPGP.plugin.js:299-318 | without a truthy passphrase generation is refused before the library; a pair is produced only by the library's Curve25519 generation with that passphrase; anything else is a failure |
| `Settings.GenerationEffects` | DiscordPGP.plugin.js:300-318 | exactly one toast: the success one exactly when a pair was generated, "Enter passphrase first" when refused, and "Key generation failed" on a library failure |
| `Plugin.PGPEncrypt.GenerateNewKeyPair` | DiscordPGP.plugin.js:298-319 | both keys are replaced and persisted exactly when generation succeeds; on refusal or failure both keys and the store are as before; the passphrase is never written |
| `Scenarios.GenerateWithoutPassphrase` | DiscordPGP.plugin.js:300-303 | with no passphrase in the session, generation refuses with its toast and leaves keys and store unchanged |

## Left out

- Cryptography (`readKey`, `createMessage`, `encrypt`, `readPrivateKey`, `decryptKey`, `readMessage`, `decrypt`, `generateKey` on Curve25519): these are foreign calls into OpenPGP.js. They are arbitrary functions that may fail, so no round trip of real encryption is stated.
- Promises and `await`: every library call is a synchronous success or failure. In particular, `encryptMessageSync` returns whatever `openpgp.encrypt` returns, which in OpenPGP.js v5 is a Promise. A user's input arriving while a call is pending is also not modelled.
- `injectOpenPGP` (script injection from the CDN, `initWorker`): this is I/O, and it is reduced to the `loaded` flag.
- Rendering and host plumbing: React elements, `Modal`, `Button`, `TooltipContainer`, the composer icon and tooltip, CSS, toast display, `console.error`, `WebpackModules` lookups, and `Patcher` hooking and unhooking. The model keeps only the effects a handler requests.
- The `config` metadata object and the fallback class used without ZeresPluginLibrary: neither has behaviour.
- Stored values that are not strings: the store holds strings, since only `saveKeys` writes the plugin's entries.
- `Plugin.PGPEncrypt.BeforeSendMessage`: a missing or non-object `args[1]` is modelled as an encryption failure. `undefined.content` throws, and a string's `content` is `undefined`, which `encryptMessageSync` or `createMessage` rejects. The exact exception is not modelled.
- `Armor.Includes`: compares Dafny characters, not UTF-16 code units. The two agree for the ASCII armor header.
