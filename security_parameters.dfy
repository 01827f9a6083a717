/**
 * The connection security-state record: one mutable object per connection
 * that accumulates the negotiated parameters, with a clearing operation and a
 * read-only accessor surface.
 */
module Tls {
  import opened TlsTypes
  import opened ClearSpec

  class SecurityParameters {
    var entity: int32
    var renegotiating: bool
    var secureRenegotiation: bool
    var cipherSuite: int32
    const compressionAlgorithm: int16 := NullCompressionMethod
    var maxFragmentLength: int16
    var prfAlgorithm: int32
    var verifyDataLength: int32
    var earlySecret: Secret?
    var handshakeSecret: Secret?
    var masterSecret: Secret?
    var sharedSecret: Secret?
    var trafficSecretClient: Secret?
    var trafficSecretServer: Secret?
    var clientRandom: array?<int8>
    var serverRandom: array?<int8>
    var sessionHash: array?<int8>
    var sessionID: array?<int8>
    var psk: array?<int8>
    var pskIdentity: array?<int8>
    var srpIdentity: array?<int8>
    var tlsServerEndPoint: array?<int8>
    var tlsUnique: array?<int8>
    var encryptThenMAC: bool
    var extendedMasterSecret: bool
    var extendedPadding: bool
    var truncatedHMac: bool
    var applicationProtocol: ProtocolName?
    var applicationProtocolSet: bool
    var clientServerNames: Vector?
    var clientSigAlgs: Vector?
    var clientSigAlgsCert: Vector?
    var clientSupportedGroups: array?<int32>
    var keyExchangeAlgorithm: int32
    var localCertificate: Certificate?
    var peerCertificate: Certificate?
    var negotiatedVersion: ProtocolVersion?
    var localVerifyData: array?<int8>
    var peerVerifyData: array?<int8>

    /** The fields clear() leaves alone, as one value. */
    ghost function RetainedView(): Retained
      reads this`entity, this`renegotiating, this`secureRenegotiation, this`cipherSuite,
        this`maxFragmentLength, this`prfAlgorithm, this`verifyDataLength,
        this`clientRandom, this`serverRandom, this`psk, this`pskIdentity, this`srpIdentity,
        this`tlsServerEndPoint, this`tlsUnique,
        this`encryptThenMAC, this`extendedMasterSecret, this`extendedPadding, this`truncatedHMac,
        this`applicationProtocol, this`applicationProtocolSet,
        this`keyExchangeAlgorithm, this`localCertificate, this`peerCertificate, this`negotiatedVersion,
        this`localVerifyData, this`peerVerifyData
    {
      Retained(
        entity, renegotiating, secureRenegotiation, cipherSuite, compressionAlgorithm,
        maxFragmentLength, prfAlgorithm, verifyDataLength,
        clientRandom, serverRandom, psk, pskIdentity, srpIdentity, tlsServerEndPoint, tlsUnique,
        encryptThenMAC, extendedMasterSecret, extendedPadding, truncatedHMac,
        applicationProtocol, applicationProtocolSet,
        keyExchangeAlgorithm, localCertificate, peerCertificate, negotiatedVersion,
        localVerifyData, peerVerifyData)
    }

    /** The negotiation-scoped fields, as one value. */
    ghost function TransientsView(): Transients
      reads this`sessionHash, this`sessionID, this`clientServerNames, this`clientSigAlgs,
        this`clientSigAlgsCert, this`clientSupportedGroups
    {
      Transients(sessionHash, sessionID, clientServerNames, clientSigAlgs, clientSigAlgsCert,
        clientSupportedGroups)
    }

    /** The six secret slots, as one value. */
    ghost function SlotsView(): Slots
      reads this`earlySecret, this`handshakeSecret, this`masterSecret, this`sharedSecret,
        this`trafficSecretClient, this`trafficSecretServer
    {
      Slots(earlySecret, handshakeSecret, masterSecret, sharedSecret, trafficSecretClient, trafficSecretServer)
    }

    /** Every field of this record as one value. */
    ghost function Snapshot(): State
      reads this
    {
      State(RetainedView(), TransientsView(), SlotsView())
    }

    /** A new record holds the field initialisers' values. */
    constructor ()
      ensures Snapshot() == Initial()
    {
      entity := Unset;
      renegotiating := false;
      secureRenegotiation := false;
      cipherSuite := NullCipherSuite;
      maxFragmentLength := -1;
      prfAlgorithm := Unset;
      verifyDataLength := Unset;
      earlySecret := null;
      handshakeSecret := null;
      masterSecret := null;
      sharedSecret := null;
      trafficSecretClient := null;
      trafficSecretServer := null;
      clientRandom := null;
      serverRandom := null;
      sessionHash := null;
      sessionID := null;
      psk := null;
      pskIdentity := null;
      srpIdentity := null;
      tlsServerEndPoint := null;
      tlsUnique := null;
      encryptThenMAC := false;
      extendedMasterSecret := false;
      extendedPadding := false;
      truncatedHMac := false;
      applicationProtocol := null;
      applicationProtocolSet := false;
      clientServerNames := null;
      clientSigAlgs := null;
      clientSigAlgsCert := null;
      clientSupportedGroups := null;
      keyExchangeAlgorithm := Unset;
      localCertificate := null;
      peerCertificate := null;
      negotiatedVersion := null;
      localVerifyData := null;
      peerVerifyData := null;
    }

    /**
     * Forgets the negotiation-scoped fields, then destroys and drops each
     * held secret in slot order. `ok` is false when a destroy() raised: the
     * exception ends the operation, so that slot and the later ones keep
     * their secrets. `destroyed` lists the secrets destroy() was called on,
     * in call order. The modifies clause names the twelve fields the
     * operation may write; every other field keeps its value.
     */
    method Clear() returns (ok: bool, ghost destroyed: seq<Secret>)
      modifies this`sessionHash, this`sessionID, this`clientServerNames, this`clientSigAlgs,
        this`clientSigAlgsCert, this`clientSupportedGroups
      modifies this`earlySecret, this`handshakeSecret, this`masterSecret, this`sharedSecret,
        this`trafficSecretClient, this`trafficSecretServer
      ensures ok == ClearSucceeds(old(SlotsView()))
      ensures TransientsView() == NoTransients
      ensures SlotsView() == ClearedSlots(old(SlotsView()))
      ensures destroyed == DestroyCalls(old(SlotsView()))
    {
      ForgetNegotiation();
      ok, destroyed := ClearSecrets();
    }

    /** The first half of clear(): drops the six negotiation-scoped references. */
    method ForgetNegotiation()
      modifies this`sessionHash, this`sessionID, this`clientServerNames, this`clientSigAlgs,
        this`clientSigAlgsCert, this`clientSupportedGroups
      ensures TransientsView() == NoTransients
    {
      sessionHash := null;
      sessionID := null;
      clientServerNames := null;
      clientSigAlgs := null;
      clientSigAlgsCert := null;
      clientSupportedGroups := null;
    }

    /**
     * The second half of clear(): runs clearSecret over the six slots in
     * order, storing its result back into each slot, until a destroy() raises.
     */
    method ClearSecrets() returns (ok: bool, ghost destroyed: seq<Secret>)
      modifies this`earlySecret, this`handshakeSecret, this`masterSecret, this`sharedSecret,
        this`trafficSecretClient, this`trafficSecretServer
      ensures ok == ClearSucceeds(old(SlotsView()))
      ensures SlotsView() == ClearedSlots(old(SlotsView()))
      ensures destroyed == DestroyCalls(old(SlotsView()))
    {
      var cleared: Secret?;
      ghost var called: seq<Secret>;
      ok, cleared, called := ClearSecret(earlySecret);
      destroyed := called;
      if !ok { return; }
      earlySecret := cleared;
      ok, cleared, called := ClearSecret(handshakeSecret);
      destroyed := destroyed + called;
      if !ok { return; }
      handshakeSecret := cleared;
      ok, cleared, called := ClearSecret(masterSecret);
      destroyed := destroyed + called;
      if !ok { return; }
      masterSecret := cleared;
      ok, cleared, called := ClearSecret(sharedSecret);
      destroyed := destroyed + called;
      if !ok { return; }
      sharedSecret := cleared;
      ok, cleared, called := ClearSecret(trafficSecretClient);
      destroyed := destroyed + called;
      if !ok { return; }
      trafficSecretClient := cleared;
      ok, cleared, called := ClearSecret(trafficSecretServer);
      destroyed := destroyed + called;
      if !ok { return; }
      trafficSecretServer := cleared;
    }

    /**
     * Destroys `secret` when there is one and yields the empty slot value.
     * `ok` is false when destroy() raised; `called` lists the secret
     * destroy() was called on, if any: never a null one.
     */
    static method ClearSecret(secret: Secret?) returns (ok: bool, cleared: Secret?, ghost called: seq<Secret>)
      ensures ok == !Throws(secret)
      ensures cleared == null
      ensures called == Opt(secret)
    {
      ok := true;
      called := [];
      if secret != null {
        ok := secret.Destroy();
        called := [secret];
      }
      cleared := null;
    }

    // Accessors: each reads one field and nothing else.

    function GetEntity(): int32
      reads this`entity
    {
      entity
    }

    function IsRenegotiating(): bool
      reads this`renegotiating
    {
      renegotiating
    }

    function IsSecureRenegotiation(): bool
      reads this`secureRenegotiation
    {
      secureRenegotiation
    }

    function GetCipherSuite(): int32
      reads this`cipherSuite
    {
      cipherSuite
    }

    function GetClientServerNames(): Vector?
      reads this`clientServerNames
    {
      clientServerNames
    }

    function GetClientSigAlgs(): Vector?
      reads this`clientSigAlgs
    {
      clientSigAlgs
    }

    function GetClientSigAlgsCert(): Vector?
      reads this`clientSigAlgsCert
    {
      clientSigAlgsCert
    }

    function GetClientSupportedGroups(): array?<int32>
      reads this`clientSupportedGroups
    {
      clientSupportedGroups
    }

    /** The compression method, which is fixed: always the null method. */
    function GetCompressionAlgorithm(): (r: int16)
      ensures r == NullCompressionMethod
    {
      compressionAlgorithm
    }

    function GetMaxFragmentLength(): int16
      reads this`maxFragmentLength
    {
      maxFragmentLength
    }

    function GetPrfAlgorithm(): int32
      reads this`prfAlgorithm
    {
      prfAlgorithm
    }

    function GetVerifyDataLength(): int32
      reads this`verifyDataLength
    {
      verifyDataLength
    }

    function GetEarlySecret(): Secret?
      reads this`earlySecret
    {
      earlySecret
    }

    function GetHandshakeSecret(): Secret?
      reads this`handshakeSecret
    {
      handshakeSecret
    }

    function GetMasterSecret(): Secret?
      reads this`masterSecret
    {
      masterSecret
    }

    function GetSharedSecret(): Secret?
      reads this`sharedSecret
    {
      sharedSecret
    }

    function GetTrafficSecretClient(): Secret?
      reads this`trafficSecretClient
    {
      trafficSecretClient
    }

    function GetTrafficSecretServer(): Secret?
      reads this`trafficSecretServer
    {
      trafficSecretServer
    }

    function GetClientRandom(): array?<int8>
      reads this`clientRandom
    {
      clientRandom
    }

    function GetServerRandom(): array?<int8>
      reads this`serverRandom
    {
      serverRandom
    }

    function GetSessionHash(): array?<int8>
      reads this`sessionHash
    {
      sessionHash
    }

    function GetSessionID(): array?<int8>
      reads this`sessionID
    {
      sessionID
    }

    function GetPSK(): array?<int8>
      reads this`psk
    {
      psk
    }

    function GetPSKIdentity(): array?<int8>
      reads this`pskIdentity
    {
      pskIdentity
    }

    function GetSRPIdentity(): array?<int8>
      reads this`srpIdentity
    {
      srpIdentity
    }

    function GetTLSServerEndPoint(): array?<int8>
      reads this`tlsServerEndPoint
    {
      tlsServerEndPoint
    }

    function GetTLSUnique(): array?<int8>
      reads this`tlsUnique
    {
      tlsUnique
    }

    function IsEncryptThenMAC(): bool
      reads this`encryptThenMAC
    {
      encryptThenMAC
    }

    function IsExtendedMasterSecret(): bool
      reads this`extendedMasterSecret
    {
      extendedMasterSecret
    }

    function IsExtendedPadding(): bool
      reads this`extendedPadding
    {
      extendedPadding
    }

    function IsTruncatedHMac(): bool
      reads this`truncatedHMac
    {
      truncatedHMac
    }

    function GetApplicationProtocol(): ProtocolName?
      reads this`applicationProtocol
    {
      applicationProtocol
    }

    function IsApplicationProtocolSet(): bool
      reads this`applicationProtocolSet
    {
      applicationProtocolSet
    }

    function GetLocalVerifyData(): array?<int8>
      reads this`localVerifyData
    {
      localVerifyData
    }

    function GetPeerVerifyData(): array?<int8>
      reads this`peerVerifyData
    {
      peerVerifyData
    }

    function GetKeyExchangeAlgorithm(): int32
      reads this`keyExchangeAlgorithm
    {
      keyExchangeAlgorithm
    }

    function GetLocalCertificate(): Certificate?
      reads this`localCertificate
    {
      localCertificate
    }

    function GetPeerCertificate(): Certificate?
      reads this`peerCertificate
    {
      peerCertificate
    }

    function GetNegotiatedVersion(): ProtocolVersion?
      reads this`negotiatedVersion
    {
      negotiatedVersion
    }
  }
}
