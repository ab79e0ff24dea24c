/** The outgoing path: the before-hook on `sendMessage` and `encryptMessageSync`. */
module SendPath {
  import opened Js
  import opened Host
  import OpenPgp

  /** A message payload: its `content` and every other field, which the hook passes on. */
  datatype Message = Message(content: string, otherFields: map<string, string>)

  /** An element of the `sendMessage` argument list: the channel id and other scalars, or the
      message object. */
  datatype Arg = Scalar(value: string) | MessageObject(message: Message)

  const NoPublicKeyError := "No public key configured"

  /** `encryptMessageSync(content)` with the plugin's current public key. */
  function EncryptContent(lib: OpenPgp.Library, publicKey: string, content: string): (r: Result<string, string>)
    ensures publicKey == "" ==> r == Failure(NoPublicKeyError)
    ensures publicKey != "" && !lib.loaded ==> r.Failure?
    ensures publicKey != "" && lib.loaded ==> r == lib.encrypt(content, publicKey)
    ensures r.Success? ==> lib.loaded && publicKey != "" && lib.encrypt(content, publicKey) == r
  {
    if publicKey == "" then Failure(NoPublicKeyError)
    else OpenPgp.Encrypt(lib, content, publicKey)
  }

  /** The second argument is a message whose content the library encrypts. A missing or
      non-object second argument makes `message.content` unusable, and the hook's `try`
      catches what follows. */
  predicate Encryptable(lib: OpenPgp.Library, publicKey: string, args: seq<Arg>)
  {
    |args| >= 2 && args[1].MessageObject? && EncryptContent(lib, publicKey, args[1].message.content).Success?
  }

  /** The arguments the send continues with, and the effects the hook requests. */
  datatype HookResult = HookResult(args: seq<Arg>, effects: seq<Effect>)

  function BeforeSend(enabled: bool, lib: OpenPgp.Library, publicKey: string, args: seq<Arg>): (h: HookResult)
    // identity when encryption is off or the library is missing
    ensures !(enabled && lib.loaded) ==> h == HookResult(args, [])
    // every failure, including the certain one with no public key, sends the original plaintext
    ensures enabled && lib.loaded && !Encryptable(lib, publicKey, args) ==> h == HookResult(args, [EncryptionFailedToast])
    ensures enabled && lib.loaded && publicKey == "" ==> h == HookResult(args, [EncryptionFailedToast])
    // on success only the content of the message argument changes, to the library's ciphertext
    ensures |h.args| == |args|
    ensures forall i | 0 <= i < |args| && i != 1 :: h.args[i] == args[i]
    ensures enabled && lib.loaded && Encryptable(lib, publicKey, args) ==>
      && h.effects == []
      && h.args[1].MessageObject?
      && h.args[1].message.otherFields == args[1].message.otherFields
      && Success(h.args[1].message.content) == lib.encrypt(args[1].message.content, publicKey)
  {
    if !(enabled && lib.loaded) then HookResult(args, [])
    else if |args| < 2 || !args[1].MessageObject? then HookResult(args, [EncryptionFailedToast])
    else
      var message := args[1].message;
      match EncryptContent(lib, publicKey, message.content)
      case Success(ciphertext) => HookResult(args[1 := MessageObject(message.(content := ciphertext))], [])
      case Failure(_) => HookResult(args, [EncryptionFailedToast])
  }

  /** The hook never blocks a send: whatever happens, either the arguments are passed on
      unchanged, or exactly the message content was replaced by ciphertext. */
  lemma NeverBlocksOrSilentlyDrops(enabled: bool, lib: OpenPgp.Library, publicKey: string, args: seq<Arg>)
    ensures var h := BeforeSend(enabled, lib, publicKey, args);
      h.args == args || (Encryptable(lib, publicKey, args) && h.effects == [])
    ensures var h := BeforeSend(enabled, lib, publicKey, args);
      h.effects == [] || h.effects == [EncryptionFailedToast]
  {
  }
}
