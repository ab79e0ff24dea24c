/** Handler sequences that a user can drive, with what the plugin promises across them. */
module Scenarios {
  import opened Js
  import opened Host
  import OpenPgp
  import opened Persistence
  import opened SendPath
  import opened DecryptFlow
  import opened Plugin

  /** Clicking the composer toggle twice restores the mode; keys, passphrase and store stay. */
  method ToggleTwice(p: PGPEncrypt) returns (effects: seq<Effect>)
    modifies p
    ensures p.encryptionEnabled == old(p.encryptionEnabled)
    ensures p.passphrase == old(p.passphrase)
    ensures p.publicKey == old(p.publicKey) && p.privateKey == old(p.privateKey)
    ensures p.store.data == old(p.store.data)
    ensures effects == [ToggleToast(!p.encryptionEnabled), ToggleToast(p.encryptionEnabled)]
  {
    var first := p.ToggleEncryption();
    var second := p.ToggleEncryption();
    effects := first + second;
  }

  /** `saveKeys` followed by `loadKeys` gives back the same keys. */
  method SaveThenLoad(p: PGPEncrypt)
    modifies p, p.store
    ensures p.publicKey == old(p.publicKey) && p.privateKey == old(p.privateKey)
    ensures p.passphrase == old(p.passphrase) && p.encryptionEnabled == old(p.encryptionEnabled)
    ensures p.store.data == SavedKeys(old(p.store.data), p.publicKey, p.privateKey)
  {
    p.SaveKeys();
    LoadAfterSave(old(p.store.data), p.publicKey, p.privateKey);
    p.LoadKeys();
  }

  /** A freshly constructed plugin sends every message as it is. */
  method FreshPluginSendsUnchanged(lib: OpenPgp.Library, sent: seq<Arg>) returns (out: seq<Arg>, effects: seq<Effect>)
    ensures out == sent && effects == []
  {
    var store := new Store(map[]);
    var p := new PGPEncrypt(store);
    var args := new Arg[|sent|](i requires 0 <= i < |sent| => sent[i]);
    assert args[..] == sent;
    effects := p.BeforeSendMessage(lib, args);
    out := args[..];
  }

  /** With no keys and encryption switched on, a message still goes out, as plaintext, with
      the failure toast. */
  method EnabledWithoutKeySendsPlaintext(lib: OpenPgp.Library, channelId: string, text: string)
    returns (out: seq<Arg>, effects: seq<Effect>)
    requires lib.loaded
    ensures out == [Scalar(channelId), MessageObject(Message(text, map[]))]
    ensures effects == [EncryptionFailedToast]
  {
    var store := new Store(map[]);
    var p := new PGPEncrypt(store);
    var _ := p.ToggleEncryption();
    var args := new Arg[2];
    args[0], args[1] := Scalar(channelId), MessageObject(Message(text, map[]));
    effects := p.BeforeSendMessage(lib, args);
    out := args[..];
  }

  /** The unlock flow: with a private key and no passphrase the menu action prompts without
      reaching the library; typing a passphrase and pressing Decrypt hands it to the library.
      Cancelling between does not undo what was typed. */
  method UnlockThenDecrypt(p: PGPEncrypt, lib: OpenPgp.Library, encrypted: string, typed: string)
    returns (prompted: seq<Effect>, cancelled: seq<Effect>, submitted: seq<Effect>)
    requires p.privateKey != "" && p.passphrase == None && typed != ""
    modifies p
    ensures prompted == [OpenPassphrasePrompt(encrypted), ShowDecryptedModal(None)]
    ensures cancelled == [ClosePassphrasePrompt]
    ensures p.passphrase == Some(typed)
    ensures submitted == [ClosePassphrasePrompt] + Report(encrypted, DecryptStep(lib, p.privateKey, Some(typed), encrypted))
    ensures p.privateKey == old(p.privateKey) && p.publicKey == old(p.publicKey)
    ensures p.encryptionEnabled == old(p.encryptionEnabled)
  {
    prompted := p.DecryptMenuAction(lib, encrypted);
    p.PromptPassphraseChange(typed);
    cancelled := p.PromptCancel();
    submitted := p.PromptDecrypt(lib, encrypted);
  }

  /** A passphrase the library rejects is kept: the next attempt goes straight to the library
      again instead of prompting, until `onStop` forgets it. */
  method RejectedPassphraseSticks(p: PGPEncrypt, lib: OpenPgp.Library, encrypted: string)
    returns (first: DecryptOutcome, second: DecryptOutcome, afterStop: DecryptOutcome)
    requires p.privateKey != "" && !Falsy(p.passphrase)
    requires lib.loaded && lib.decrypt(encrypted, p.privateKey, p.passphrase.value).Failure?
    modifies p
    ensures first.DecryptFailed? && second == first
    ensures afterStop == AwaitPassphrase
    ensures p.passphrase == None
    ensures p.privateKey == old(p.privateKey) && p.publicKey == old(p.publicKey)
    ensures p.encryptionEnabled == old(p.encryptionEnabled)
  {
    first := p.DecryptMessage(lib, encrypted);
    second := p.DecryptMessage(lib, encrypted);
    p.OnStop();
    afterStop := p.DecryptMessage(lib, encrypted);
  }

  /** Key generation with no passphrase in the session refuses and changes nothing. */
  method GenerateWithoutPassphrase(p: PGPEncrypt, lib: OpenPgp.Library, entropy: nat) returns (effects: seq<Effect>)
    requires Falsy(p.passphrase)
    modifies p, p.store
    ensures effects == [PassphraseFirstToast]
    ensures p.publicKey == old(p.publicKey) && p.privateKey == old(p.privateKey)
    ensures p.store.data == old(p.store.data)
  {
    effects := p.GenerateNewKeyPair(lib, entropy);
  }
}
