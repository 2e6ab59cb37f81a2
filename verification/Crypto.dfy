/** The cryptographic operations of src/crypto.c over symbolic terms: libsodium's
    results are named by what they were computed from. */
module Crypto {
  import opened Prelude

  // -------- Sizes --------

  const KEY_SIZE: nat := 32
  const HEADER_SIZE: nat := 24
  const HASH_SIZE: nat := 32
  const STREAM_OVERHEAD: nat := 17
  const MAC_SIZE: nat := 16
  const NONCE_SIZE: nat := 24
  const PADDING_BLOCK: nat := 8

  function EncryptedSize(size: nat): nat {
    size + STREAM_OVERHEAD
  }

  function SingleEncryptedSize(size: nat): nat {
    MAC_SIZE + size + NONCE_SIZE
  }

  // -------- Key exchange --------

  // A secret key is the number of the draw that produced it: no two draws collide.
  datatype PublicKey = Pub(secret: nat)

  // The Diffie-Hellman point: the same from either side, and from no other pair.
  datatype Point = Point(low: nat, high: nat)

  function DiffieHellman(secret: nat, other: PublicKey): Point {
    if secret <= other.secret then Point(secret, other.secret) else Point(other.secret, secret)
  }

  // crypto_kx hashes the point with both public keys and splits the digest in two.
  datatype Half = First | Second
  datatype SessionKey = SessionKey(point: Point, client: PublicKey, server: PublicKey, half: Half)

  datatype Keys = Keys(clientKey: SessionKey, serverKey: SessionKey)

  // crypto_kx_client_session_keys: rx is the first half and tx the second.
  function ClientSessionKeys(clientSecret: nat, server: PublicKey): Keys {
    var point, client := DiffieHellman(clientSecret, server), Pub(clientSecret);
    Keys(SessionKey(point, client, server, First), SessionKey(point, client, server, Second))
  }

  // crypto_kx_server_session_keys: tx is the first half and rx the second.
  function ServerSessionKeys(serverSecret: nat, client: PublicKey): Keys {
    var point, server := DiffieHellman(serverSecret, client), Pub(serverSecret);
    Keys(SessionKey(point, client, server, First), SessionKey(point, client, server, Second))
  }

  // Both sides derive the same pair, whichever of the two secrets is the smaller,
  // and a pair determines the two secrets and which key is whose.
  lemma KeyAgreement(clientSecret: nat, serverSecret: nat)
    ensures ClientSessionKeys(clientSecret, Pub(serverSecret)) == ServerSessionKeys(serverSecret, Pub(clientSecret))
    ensures forall c, s :: ClientSessionKeys(c, Pub(s)) == ServerSessionKeys(serverSecret, Pub(clientSecret))
                      ==> c == clientSecret && s == serverSecret
    ensures forall c, s :: ClientSessionKeys(c, Pub(s)).clientKey != ServerSessionKeys(serverSecret, Pub(clientSecret)).serverKey
  {
  }

  // -------- Sealed boxes --------

  // A stream header in a secretbox; the random nonce travels with it and plays no part in opening.
  datatype SealedHeader = SealedHeader(key: SessionKey, header: nat)

  function Open(key: SessionKey, box: SealedHeader): Option<nat> {
    if box.key == key then Some(box.header) else None
  }

  // -------- Streams --------

  datatype StreamState = StreamState(key: SessionKey, header: nat, counter: nat)

  datatype Ciphertext = Ciphertext(state: StreamState, plain: seq<byte>) {
    function Size(): nat {
      EncryptedSize(|plain|)
    }
  }

  function Advanced(state: StreamState): StreamState {
    state.(counter := state.counter + 1)
  }

  // crypto_secretstream_pull: only the state that pushed a text pulls it.
  function Pull(state: StreamState, text: Ciphertext): Option<seq<byte>> {
    if text.state == state then Some(text.plain) else None
  }

  // CryptoCoderStreams as it is stored and reloaded.
  datatype Streams = Streams(decryption: StreamState, encryption: StreamState)

  predicate Mirrored(a: Streams, b: Streams) {
    a.encryption == b.decryption && a.decryption == b.encryption
  }

  class CryptoKeys {
    var serverPublicKey: PublicKey // the client's for the functions of the server side
    var clientPublicKey: PublicKey // the server's for the functions of the server side
    var clientSecretKey: nat       // the server's for the functions of the server side
    var clientKey: SessionKey
    var serverKey: SessionKey

    constructor ()
    {
      var none := Pub(0);
      serverPublicKey, clientPublicKey, clientSecretKey := none, none, 0;
      clientKey := SessionKey(Point(0, 0), none, none, First);
      serverKey := SessionKey(Point(0, 0), none, none, First);
    }

    function Value(): Keys
      reads this
    {
      Keys(clientKey, serverKey)
    }

    // cryptoExchangeKeys: draws a pair and derives the session keys of the client side.
    method ExchangeKeys(drawn: nat, server: PublicKey)
      modifies this
      ensures clientPublicKey == Pub(drawn)
      ensures Value() == ClientSessionKeys(drawn, server)
    {
      clientPublicKey, clientSecretKey := Pub(drawn), drawn;
      serverPublicKey := server;
      var point := DiffieHellman(clientSecretKey, serverPublicKey);
      clientKey := SessionKey(point, clientPublicKey, serverPublicKey, First);
      serverKey := SessionKey(point, clientPublicKey, serverPublicKey, Second);
    }

    // cryptoGenerateKeyPairAsServer
    method GenerateKeyPairAsServer(drawn: nat) returns (public: PublicKey)
      modifies this
      ensures public == Pub(drawn) && clientPublicKey == public && clientSecretKey == drawn
    {
      clientPublicKey, clientSecretKey := Pub(drawn), drawn;
      public := clientPublicKey;
    }

    // cryptoExchangeKeysAsServer
    method ExchangeKeysAsServer(client: PublicKey)
      requires clientPublicKey == Pub(clientSecretKey)
      modifies this
      ensures clientSecretKey == old(clientSecretKey)
      ensures Value() == ServerSessionKeys(clientSecretKey, client)
    {
      serverPublicKey := client;
      var point := DiffieHellman(clientSecretKey, serverPublicKey);
      serverKey := SessionKey(point, serverPublicKey, clientPublicKey, Second);
      clientKey := SessionKey(point, serverPublicKey, clientPublicKey, First);
    }
  }

  class CoderStreams {
    var clientDecryptionState: StreamState
    var clientEncryptionState: StreamState

    // cryptoCoderStreamsInit
    constructor ()
    {
      var nothing := SessionKey(Point(0, 0), Pub(0), Pub(0), First);
      clientDecryptionState, clientEncryptionState := StreamState(nothing, 0, 0), StreamState(nothing, 0, 0);
    }

    // cryptoSetUpAutonomous with states that were exported before
    constructor FromStates(states: Streams)
      ensures Value() == states
    {
      clientDecryptionState, clientEncryptionState := states.decryption, states.encryption;
    }

    // cryptoExportStreamsStates
    function Value(): Streams
      reads this
    {
      Streams(clientDecryptionState, clientEncryptionState)
    }

    // cryptoInitializeCoderStreams, the inviter's side
    method InitializeCoderStreams(keys: Keys, serverHeader: nat, drawnHeader: nat) returns (clientHeader: nat)
      modifies this
      ensures clientHeader == drawnHeader
      ensures Value() == InviterStreams(keys, serverHeader, drawnHeader)
    {
      clientDecryptionState := StreamState(keys.serverKey, serverHeader, 0);
      clientHeader := drawnHeader;
      clientEncryptionState := StreamState(keys.clientKey, clientHeader, 0);
    }

    // cryptoCreateEncoderAsServer
    method CreateEncoderAsServer(keys: Keys, drawnHeader: nat) returns (serverHeader: nat)
      modifies this
      ensures serverHeader == drawnHeader
      ensures clientEncryptionState == StreamState(keys.serverKey, drawnHeader, 0)
      ensures clientDecryptionState == old(clientDecryptionState)
    {
      serverHeader := drawnHeader;
      clientEncryptionState := StreamState(keys.serverKey, serverHeader, 0);
    }

    // cryptoCreateDecoderStreamAsServer
    method CreateDecoderStreamAsServer(keys: Keys, clientHeader: nat)
      modifies this
      ensures clientDecryptionState == StreamState(keys.clientKey, clientHeader, 0)
      ensures clientEncryptionState == old(clientEncryptionState)
    {
      clientDecryptionState := StreamState(keys.clientKey, clientHeader, 0);
    }

    // cryptoEncrypt: every push moves the encoder on.
    method Encrypt(plain: seq<byte>) returns (text: Ciphertext)
      requires plain != []
      modifies this
      ensures text == Ciphertext(old(clientEncryptionState), plain)
      ensures clientEncryptionState == Advanced(old(clientEncryptionState))
      ensures clientDecryptionState == old(clientDecryptionState)
    {
      text := Ciphertext(clientEncryptionState, plain);
      clientEncryptionState := Advanced(clientEncryptionState);
    }

    // cryptoDecrypt: every successful pull moves the decoder on.
    method Decrypt(text: Ciphertext) returns (plain: Option<seq<byte>>)
      modifies this
      ensures plain == Pull(old(clientDecryptionState), text)
      ensures clientDecryptionState ==
              if plain.Some? then Advanced(old(clientDecryptionState)) else old(clientDecryptionState)
      ensures clientEncryptionState == old(clientEncryptionState)
    {
      plain := None;
      if text.state == clientDecryptionState {
        plain := Some(text.plain);
        clientDecryptionState := Advanced(clientDecryptionState);
      }
    }
  }

  function InviterStreams(keys: Keys, serverHeader: nat, clientHeader: nat): Streams {
    Streams(StreamState(keys.serverKey, serverHeader, 0), StreamState(keys.clientKey, clientHeader, 0))
  }

  function InvitedStreams(keys: Keys, serverHeader: nat, clientHeader: nat): Streams {
    Streams(StreamState(keys.clientKey, clientHeader, 0), StreamState(keys.serverKey, serverHeader, 0))
  }

  // -------- Multipart hash --------

  // The digest of a byte string; the hash is taken to be injective.
  datatype Digest = Digest(bytes: seq<byte>)

  // cryptoHashMultipart: begun with nothing, fed in parts, finished into a digest.
  class HashState {
    var absorbed: seq<byte>

    constructor ()
      ensures absorbed == []
    {
      absorbed := [];
    }

    method Update(part: seq<byte>)
      modifies this
      ensures absorbed == old(absorbed) + part
    {
      absorbed := absorbed + part;
    }

    method Final() returns (digest: Digest)
      ensures digest == Digest(absorbed)
    {
      digest := Digest(absorbed);
    }
  }
}
