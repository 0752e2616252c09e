/** The PEM block as the envelope decoder hands it over, and the label sets
    each loader accepts (RFC 7468 sections 10, 11 and 13, plus the legacy
    PKCS #1 "RSA ... KEY" labels). */
module Pem {

  newtype byte = b: int | 0 <= b < 256
  type Bytes = seq<byte>

  /** A decoded PEM block. `encrypted` is what the library's legacy
      encryption-header test (the `DEK-Info` header, RFC 1421 section 4.6.1.3) reports for it. */
  datatype Block = Block(blockType: string, bytes: Bytes, encrypted: bool)

  const PrivateKeyLabel: string := "PRIVATE KEY"
  const EncryptedPrivateKeyLabel: string := "ENCRYPTED PRIVATE KEY"
  const RsaPrivateKeyLabel: string := "RSA PRIVATE KEY"
  const PublicKeyLabel: string := "PUBLIC KEY"
  const RsaPublicKeyLabel: string := "RSA PUBLIC KEY"

  /** Labels of the private loader's `case` arm. */
  const PrivateLabels: set<string> := {PrivateKeyLabel, EncryptedPrivateKeyLabel, RsaPrivateKeyLabel}

  /** Labels of the public loader's `case` arm. */
  const PublicLabels: set<string> :=
    {PublicKeyLabel, PrivateKeyLabel, EncryptedPrivateKeyLabel, RsaPublicKeyLabel, RsaPrivateKeyLabel}

  /** The public loader accepts every private label and exactly the two
      public-key labels besides; each set holds exactly these strings, so a
      certificate block's label is in neither. */
  lemma LabelSets()
    ensures PrivateLabels < PublicLabels
    ensures PublicLabels - PrivateLabels == {"PUBLIC KEY", "RSA PUBLIC KEY"}
    ensures |PrivateLabels| == 3 && |PublicLabels| == 5
    ensures "CERTIFICATE" !in PublicLabels
  {
  }
}
