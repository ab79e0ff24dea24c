/** The `PGPEncrypt` plugin object: its four session fields, the store it persists keys in,
    and one method per handler of the plugin's `PGPEncrypt` class. */
module Plugin {
  import opened Js
  import opened Host
  import OpenPgp
  import opened Persistence
  import opened SendPath
  import opened DecryptFlow
  import opened Settings

  class PGPEncrypt {
    var encryptionEnabled: bool
    var passphrase: Option<string>   // None is `null`
    var publicKey: string
    var privateKey: string
    /** `PluginUtilities`' data store, shared with the host. */
    const store: Store

    constructor (store: Store)
      ensures this.store == store
      ensures !encryptionEnabled && passphrase == None && publicKey == "" && privateKey == ""
    {
      this.store := store;
      encryptionEnabled := false;
      passphrase := None;
      publicKey := "";
      privateKey := "";
    }

    /** `onStart`: of its steps only `loadKeys` touches the model's state. */
    method OnStart()
      modifies this`publicKey, this`privateKey
      ensures publicKey == OrEmpty(Lookup(store.data, PublicKeyEntry))
      ensures privateKey == OrEmpty(Lookup(store.data, PrivateKeyEntry))
    {
      LoadKeys();
    }

    /** `onStop` forgets the passphrase and nothing else: keys, toggle and store stay. */
    method OnStop()
      modifies this`passphrase
      ensures passphrase == None
    {
      passphrase := None;
    }

    method LoadKeys()
      modifies this`publicKey, this`privateKey
      ensures publicKey == OrEmpty(Lookup(store.data, PublicKeyEntry))
      ensures privateKey == OrEmpty(Lookup(store.data, PrivateKeyEntry))
    {
      var pub := store.LoadData(PluginName, "publicKey");
      publicKey := OrEmpty(pub);
      var priv := store.LoadData(PluginName, "privateKey");
      privateKey := OrEmpty(priv);
    }

    /** Writes the two key fields, and only them, to the store. */
    method SaveKeys()
      modifies store
      ensures store.data == SavedKeys(old(store.data), publicKey, privateKey)
    {
      store.SaveData(PluginName, "publicKey", publicKey);
      store.SaveData(PluginName, "privateKey", privateKey);
    }

    /** The composer button's `onClick`. */
    method ToggleEncryption() returns (effects: seq<Effect>)
      modifies this`encryptionEnabled
      ensures encryptionEnabled == !old(encryptionEnabled)
      ensures effects == [ToggleToast(encryptionEnabled)]
    {
      encryptionEnabled := !encryptionEnabled;
      effects := [ToggleToast(encryptionEnabled)];
    }

    method EncryptMessageSync(lib: OpenPgp.Library, content: string) returns (r: Result<string, string>)
      ensures r == EncryptContent(lib, publicKey, content)
    {
      if publicKey == "" {
        return Failure(NoPublicKeyError);
      }
      if !lib.loaded {
        return Failure(OpenPgp.NotLoadedError);
      }
      r := lib.encrypt(content, publicKey);
    }

    /** The `sendMessage` before-callback: rewrites `args[1]` in place when it encrypts; no
        field of the plugin and nothing in the store changes. */
    method BeforeSendMessage(lib: OpenPgp.Library, args: array<Arg>) returns (effects: seq<Effect>)
      modifies args
      ensures HookResult(args[..], effects) == BeforeSend(encryptionEnabled, lib, publicKey, old(args[..]))
    {
      effects := [];
      if encryptionEnabled && lib.loaded {
        if args.Length < 2 || !args[1].MessageObject? {
          effects := [EncryptionFailedToast];
        } else {
          var message := args[1].message;
          var encrypted := EncryptMessageSync(lib, message.content);
          match encrypted
          case Success(ciphertext) =>
            args[1] := MessageObject(message.(content := ciphertext));
          case Failure(_) =>
            effects := [EncryptionFailedToast];
        }
      }
    }

    /** The entry guards of `decryptMessage` and the library calls behind them. It writes no
        field, so no outcome, failure included, clears the passphrase. */
    method DecryptMessage(lib: OpenPgp.Library, encryptedContent: string) returns (r: DecryptOutcome)
      ensures r == DecryptStep(lib, privateKey, passphrase, encryptedContent)
    {
      if privateKey == "" {
        return NoPrivateKey;
      }
      if Falsy(passphrase) {
        return AwaitPassphrase;
      }
      var result := OpenPgp.Decrypt(lib, encryptedContent, privateKey, passphrase.value);
      match result
      case Success(plaintext) => r := Decrypted(plaintext);
      case Failure(reason) => r := DecryptFailed(reason);
    }

    /** The "Decrypt PGP Message" context-menu action. */
    method DecryptMenuAction(lib: OpenPgp.Library, content: string) returns (effects: seq<Effect>)
      ensures effects == Report(content, DecryptStep(lib, privateKey, passphrase, content))
    {
      var outcome := DecryptMessage(lib, content);
      effects := Report(content, outcome);
    }

    /** The prompt's text input `onChange`: every keystroke overwrites the passphrase. */
    method PromptPassphraseChange(typed: string)
      modifies this`passphrase
      ensures passphrase == Some(typed)
    {
      passphrase := Some(typed);
    }

    /** The prompt's Cancel button closes the modal and keeps whatever was typed. */
    method PromptCancel() returns (effects: seq<Effect>)
      ensures effects == [ClosePassphrasePrompt]
    {
      effects := [ClosePassphrasePrompt];
    }

    /** The prompt's Decrypt button: closes the modal, then retries `decryptMessage`. */
    method PromptDecrypt(lib: OpenPgp.Library, encryptedContent: string) returns (effects: seq<Effect>)
      ensures effects == [ClosePassphrasePrompt] + Report(encryptedContent, DecryptStep(lib, privateKey, passphrase, encryptedContent))
    {
      var outcome := DecryptMessage(lib, encryptedContent);
      effects := [ClosePassphrasePrompt] + Report(encryptedContent, outcome);
    }

    /** The settings panel's public-key field `onChange`. */
    method PublicKeyChange(typed: string)
      modifies this`publicKey, store
      ensures publicKey == typed
      ensures store.data == SavedKeys(old(store.data), typed, privateKey)
    {
      publicKey := typed;
      SaveKeys();
    }

    /** The settings panel's private-key field `onChange`. */
    method PrivateKeyChange(typed: string)
      modifies this`privateKey, store
      ensures privateKey == typed
      ensures store.data == SavedKeys(old(store.data), publicKey, typed)
    {
      privateKey := typed;
      SaveKeys();
    }

    /** "Generate New Key Pair (Curve25519)": the keys change, and are persisted, only when
        the library returns a pair; the passphrase is passed to the library, never stored. */
    method GenerateNewKeyPair(lib: OpenPgp.Library, entropy: nat) returns (effects: seq<Effect>)
      modifies this`publicKey, this`privateKey, store
      ensures var g := Generation(lib, passphrase, entropy);
        && effects == GenerationEffects(g)
        && (g.Generated? ==>
              && publicKey == g.pair.publicKey && privateKey == g.pair.privateKey
              && store.data == SavedKeys(old(store.data), publicKey, privateKey))
        && (!g.Generated? ==>
              publicKey == old(publicKey) && privateKey == old(privateKey) && store.data == old(store.data))
    {
      if Falsy(passphrase) {
        return [PassphraseFirstToast];
      }
      var generated := OpenPgp.GenerateKey(lib, Curve25519Options(passphrase.value), entropy);
      match generated
      case Success(pair) =>
        privateKey := pair.privateKey;
        publicKey := pair.publicKey;
        SaveKeys();
        effects := [KeyPairGeneratedToast];
      case Failure(_) =>
        effects := [KeyGenerationFailedToast];
    }
  }
}
