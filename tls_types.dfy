/**
 * Value types, protocol constants and the collaborator types that the
 * connection security-state record refers to but never looks inside.
 */
module TlsTypes {

  /** Java's `byte`, `short` and `int`: the widths the record stores. */
  newtype int8 = x: int | -0x80 <= x < 0x80
  newtype int16 = x: int | -0x8000 <= x < 0x8000
  newtype int32 = x: int | -0x8000_0000 <= x < 0x8000_0000

  /** The "not yet known" sentinel used for the role, PRF, fragment length and so on. */
  const Unset: int32 := -1

  /** TLS_NULL_WITH_NULL_NULL, cipher suite {0x00, 0x00} of RFC 5246 appendix A.5. */
  const NullCipherSuite: int32 := 0x0000

  /** CompressionMethod `null(0)` of RFC 5246 section 7.4.1.2. */
  const NullCompressionMethod: int16 := 0

  /** A `java.util.Vector` held by reference; its elements are never read here. */
  class Vector {
    constructor () { }
  }

  /** A certificate chain held by reference; it is never inspected here. */
  class Certificate {
    constructor () { }
  }

  /** A negotiated application protocol (ALPN) name, held by reference. */
  class ProtocolName {
    constructor () { }
  }

  /** A negotiated protocol version, held by reference. */
  class ProtocolVersion {
    constructor () { }
  }

  /**
   * A secret capability (the crypto layer's TlsSecret): opaque key material
   * whose only operation used here is destroy(). `throwsOnDestroy` says
   * whether this object's destroy() raises an exception.
   */
  class Secret {
    const throwsOnDestroy: bool

    constructor (throwsOnDestroy: bool)
      ensures this.throwsOnDestroy == throwsOnDestroy
    {
      this.throwsOnDestroy := throwsOnDestroy;
    }

    /** Destroys the key material; `ok` is false when the call raises. */
    method Destroy() returns (ok: bool)
      ensures ok == !throwsOnDestroy
    {
      ok := !throwsOnDestroy;
    }
  }
}
