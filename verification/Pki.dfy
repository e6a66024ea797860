/** Certificates, revocation lists and the foreign cryptographic code, as seen by the Go sources. */
module Pki {
  import opened Basics

  type Key = string

  /** The fields of a parsed X.509 certificate that the sources read. */
  datatype X509 = X509(
    serial: int, fingerprint: string, subject: string, issuer: string,
    key: Key, mldsa: bool, isCA: bool, documentSigning: bool, notBefore: Time, notAfter: Time)

  /** One CRL entry: serial, RFC 5280 section 5.3.1 reason code, revocation time. */
  datatype CrlEntry = CrlEntry(serial: int, reason: int, at: Time)

  datatype Crl = Crl(number: nat, entries: seq<CrlEntry>, thisUpdate: Time, nextUpdate: Time)

  /** The CRL bytes a verifier is given: none, bytes that do not parse, or a revocation list. */
  datatype CrlFile = NoCrl | Unparseable | CrlFile(crl: Crl)

  /** One signature as the PDF library reports it. */
  datatype RawSignature = RawSignature(
    valid: bool, trustedChain: bool, revoked: bool, contact: string, certificate: Option<X509>)

  /** Opening and walking a PDF: it may not open, the verifier may be misconfigured, or it yields signatures. */
  datatype PdfParse = CannotOpen | BuilderError | Signatures(sigs: seq<RawSignature>)

  /** Foreign code, left uninterpreted.  Every field is a total function of its arguments; the
      time argument also stands for anything else that may vary between calls (timeouts). */
  datatype World = World(
    parseCsr: Bytes -> Option<Key>,
    parseCertificate: Bytes -> Option<X509>,
    chains: (X509, Time) -> bool,
    crlSignedBy: (Crl, X509) -> bool,
    intermediates: seq<X509>,
    parsePdf: (Bytes, Time) -> PdfParse,
    sha512: Bytes -> string)

  /** Some entry of the list carries this serial. */
  predicate Listed(entries: seq<CrlEntry>, serial: int) {
    exists i :: 0 <= i < |entries| && entries[i].serial == serial
  }
}
