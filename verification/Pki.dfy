/** Certificates, keys and the texts that hold them, with cryptography left abstract. */
module Pki {
  type Key = nat

  // The public key a certificate certifies, the key that signed it, and its basic constraint.
  datatype Cert = Cert(subject: Key, signer: Key, isCA: bool)

  datatype Block = CertBlock(cert: Cert) | KeyBlock(key: Key) | OpaqueBlock(content: string)

  // A PEM text, as the list of its blocks; module Pem justifies reading concatenation this way.
  type Text = seq<Block>

  predicate Signs(ca: Cert, c: Cert) {
    ca.isCA && c.signer == ca.subject
  }

  // Path validation as in section 6.1 of RFC 5280, leaf first, without names and validity periods.
  predicate ValidPath(path: seq<Cert>, anchor: Cert) {
    && path != []
    && (if |path| == 1 then Signs(anchor, path[0])
        else Signs(path[1], path[0]) && ValidPath(path[1..], anchor))
  }
}

/** The conventional Some/None datatype. */
module Options {
  datatype Option<+T> = None | Some(value: T)
}

/** What may happen to a call: it is served, it never arrives, or it is served and the reply is lost. */
module Faults {
  datatype Fault = Fine | Lost | Unanswered
}
