/** ListenerAdnlChannel::create: derives the two AES keys of an ADNL channel
    from the Ed25519 shared secret, one of them byte-reversed, and chooses which
    side decrypts with which by comparing the two node ids.

    The Ed25519 arithmetic, the AES short id and the encryptor and decryptor
    constructors are foreign and are the fields of ChannelEnv; the channel
    actor that is created in the end is represented by its ids and keys. */
module AdnlChannel {
  import opened Common

  /** td::Ed25519::compute_shared_secret always yields 32 bytes; the CHECK on
      that length becomes this type. */
  type Secret = s: seq<byte> | |s| == 32 witness seq(32, i => 0 as byte)

  datatype ChannelEnv = ChannelEnv(
    /** compute_shared_secret(pub.export_key(), pk.export_key()) */
    sharedSecret: (nat, nat) -> Result<Secret>,
    /** compute_short_id of privkeys::AES{k} and of pubkeys::AES{k}: both hash the same key. */
    aesShortId: seq<byte> -> nat,
    /** create_encryptor / create_decryptor of an AES key: the error text, if any. */
    encryptorError: seq<byte> -> Option<string>,
    decryptorError: seq<byte> -> Option<string>)

  /** R.first decrypts what arrives, R.second encrypts what leaves. */
  datatype ChannelKeys = ChannelKeys(decrypt: seq<byte>, encrypt: seq<byte>)

  datatype Channel = Channel(localId: NodeId, peerId: NodeId, inId: nat, outId: nat, keys: ChannelKeys)

  const SharedSecretPrefix: string := "failed to compute channel shared secret: "
  const EncryptorPrefix: string := "failed to init channel encryptor: "
  const DecryptorPrefix: string := "failed to init channel decryptor: "

  /** The byte-reversal loop over a 32-byte buffer. */
  method ReverseSecret(shared: Secret) returns (rev: Secret)
    ensures forall i :: 0 <= i < 32 ==> rev[i] == shared[31 - i]
    ensures rev == Reverse(shared)
  {
    var buf := new byte[32];
    for i := 0 to 32
      invariant forall j :: 0 <= j < i ==> buf[j] == shared[31 - j]
    {
      buf[i] := shared[31 - i];
    }
    rev := buf[..];
    forall i | 0 <= i < 32
      ensures rev[i] == Reverse(shared)[i]
    {
      ReverseAt(shared, i);
    }
  }

  /** The key-direction lambda: the lower id decrypts with the secret itself and
      encrypts with its reversal, the higher id the other way round, and a
      channel to oneself uses the secret both ways. */
  function SelectKeys(localId: NodeId, peerId: NodeId, shared: seq<byte>, rev: seq<byte>): ChannelKeys
  {
    if localId < peerId then ChannelKeys(shared, rev)
    else if peerId < localId then ChannelKeys(rev, shared)
    else ChannelKeys(shared, shared)
  }

  /** What create returns for one end. */
  function ChannelOf(env: ChannelEnv, privateKey: nat, peerPublicKey: nat, localId: NodeId, peerId: NodeId): Result<Channel>
  {
    match env.sharedSecret(peerPublicKey, privateKey)
    case Failure(e) => Failure(SharedSecretPrefix + e)
    case Success(shared) =>
      var keys := SelectKeys(localId, peerId, shared, Reverse(shared));
      if env.encryptorError(keys.encrypt).Some? then Failure(EncryptorPrefix + env.encryptorError(keys.encrypt).value)
      else if env.decryptorError(keys.decrypt).Some? then Failure(DecryptorPrefix + env.decryptorError(keys.decrypt).value)
      else Success(Channel(localId, peerId, env.aesShortId(keys.decrypt), env.aesShortId(keys.encrypt), keys))
  }

  method Create(env: ChannelEnv, privateKey: nat, peerPublicKey: nat, localId: NodeId, peerId: NodeId)
    returns (r: Result<Channel>)
    ensures r == ChannelOf(env, privateKey, peerPublicKey, localId, peerId)
  {
    var secret := env.sharedSecret(peerPublicKey, privateKey);
    if secret.Failure? {
      return Failure(SharedSecretPrefix + secret.error);
    }
    var shared := secret.value;
    var rev := ReverseSecret(shared);
    var keys := SelectKeys(localId, peerId, shared, rev);
    var inId := env.aesShortId(keys.decrypt);
    var outId := env.aesShortId(keys.encrypt);
    var encErr := env.encryptorError(keys.encrypt);
    if encErr.Some? {
      return Failure(EncryptorPrefix + encErr.value);
    }
    var decErr := env.decryptorError(keys.decrypt);
    if decErr.Some? {
      return Failure(DecryptorPrefix + decErr.value);
    }
    return Success(Channel(localId, peerId, inId, outId, keys));
  }

  /** Reversing the reversed secret gives the secret back. */
  lemma SecretReversalInvolutive(shared: Secret)
    ensures Reverse(Reverse(shared)) == shared
    ensures forall i :: 0 <= i < 32 ==> Reverse(shared)[i] == shared[31 - i]
  {
    ReverseInvolutive(shared);
    forall i | 0 <= i < 32
      ensures Reverse(shared)[i] == shared[31 - i]
    {
      ReverseAt(shared, i);
    }
  }

  /** Two distinct ends that share a secret pick mirror keys: what one encrypts
      with, the other decrypts with. */
  lemma KeysMirror(a: NodeId, b: NodeId, shared: seq<byte>)
    requires a != b
    ensures SelectKeys(a, b, shared, Reverse(shared)).decrypt == SelectKeys(b, a, shared, Reverse(shared)).encrypt
    ensures SelectKeys(a, b, shared, Reverse(shared)).encrypt == SelectKeys(b, a, shared, Reverse(shared)).decrypt
    ensures SelectKeys(a, b, shared, Reverse(shared)).decrypt != SelectKeys(a, b, shared, Reverse(shared)).encrypt
            <== shared != Reverse(shared)
  {
  }

  /** So one end's incoming channel id is the other end's outgoing one. */
  lemma ChannelIdsMirror(env: ChannelEnv, privA: nat, pubA: nat, privB: nat, pubB: nat, a: NodeId, b: NodeId)
    requires a != b
    requires env.sharedSecret(pubB, privA).Success? && env.sharedSecret(pubB, privA) == env.sharedSecret(pubA, privB)
    requires ChannelOf(env, privA, pubB, a, b).Success? && ChannelOf(env, privB, pubA, b, a).Success?
    ensures ChannelOf(env, privA, pubB, a, b).value.inId == ChannelOf(env, privB, pubA, b, a).value.outId
    ensures ChannelOf(env, privA, pubB, a, b).value.outId == ChannelOf(env, privB, pubA, b, a).value.inId
  {
    KeysMirror(a, b, env.sharedSecret(pubB, privA).value);
  }

  /** A channel to oneself decrypts and encrypts with the secret, so its two ids coincide. */
  lemma SelfChannelIdsCoincide(env: ChannelEnv, privateKey: nat, peerPublicKey: nat, id: NodeId)
    requires ChannelOf(env, privateKey, peerPublicKey, id, id).Success?
    ensures ChannelOf(env, privateKey, peerPublicKey, id, id).value.inId ==
            ChannelOf(env, privateKey, peerPublicKey, id, id).value.outId
    ensures ChannelOf(env, privateKey, peerPublicKey, id, id).value.keys.decrypt ==
            env.sharedSecret(peerPublicKey, privateKey).value
  {
  }

  /** The errors come in the order of the source: the secret, then the
      encryptor, then the decryptor, each with its prefix. */
  lemma CreateErrors(env: ChannelEnv, privateKey: nat, peerPublicKey: nat, localId: NodeId, peerId: NodeId)
    ensures env.sharedSecret(peerPublicKey, privateKey).Failure? ==>
            ChannelOf(env, privateKey, peerPublicKey, localId, peerId) ==
              Failure(SharedSecretPrefix + env.sharedSecret(peerPublicKey, privateKey).error)
    ensures ChannelOf(env, privateKey, peerPublicKey, localId, peerId).Failure? <==>
            env.sharedSecret(peerPublicKey, privateKey).Failure? ||
            (var s := env.sharedSecret(peerPublicKey, privateKey).value;
             var k := SelectKeys(localId, peerId, s, Reverse(s));
             env.encryptorError(k.encrypt).Some? || env.decryptorError(k.decrypt).Some?)
  {
  }
}
