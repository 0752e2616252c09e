/** The error taxonomy of the loaders and the messages Go builds for them. */
module Errors {

  /** One constructor per place where load.go sets `err`. */
  datatype LoadError =
    | InvalidPem                                  // no PEM block could be decoded
    | DecryptFailed(cause: string)                // DecryptPEMBlock failed with `cause`
    | UnsupportedBlockType(blockType: string)     // the PEM label is not accepted on this path
    | DecodeFailed(cause: string)                 // every structural decoder failed; `cause` is the last one's
    | UnsupportedKeyType(typeName: string)        // a decoder succeeded with a non-RSA key of this Go type

  const InvalidPemMessage: string := "Invalid PEM key file"
  const DecryptPrefix: string := "Error decrypting PEM block: "
  const BlockTypePrefix: string := "Unsupported PEM block type \""
  const KeyTypePrefix: string := "Unsupported key type "

  /** The text of `err.Error()`; `%q` is modelled as plain double quotes. */
  function Message(e: LoadError): (m: string)
    ensures e.InvalidPem? ==> m == "Invalid PEM key file"
    ensures e.DecryptFailed? ==> DecryptPrefix <= m && m[|DecryptPrefix|..] == e.cause
    ensures e.UnsupportedBlockType? ==> BlockTypePrefix <= m && e.blockType <= m[|BlockTypePrefix|..]
    ensures e.DecodeFailed? ==> m == e.cause
    ensures e.UnsupportedKeyType? ==> KeyTypePrefix <= m && m[|KeyTypePrefix|..] == e.typeName
  {
    match e
    case InvalidPem => InvalidPemMessage
    case DecryptFailed(cause) => DecryptPrefix + cause
    case UnsupportedBlockType(t) => BlockTypePrefix + t + "\""
    case DecodeFailed(cause) => cause
    case UnsupportedKeyType(typeName) => KeyTypePrefix + typeName
  }

  /** A decryption failure keeps its cause verbatim after a fixed prefix, so
      the cause can be recovered from the message; the exhausted cascade
      surfaces the last decoder's message with no wrapping at all. */
  lemma MessageKeepsCause(c1: string, c2: string)
    ensures Message(DecryptFailed(c1))[..|DecryptPrefix|] == DecryptPrefix
    ensures Message(DecryptFailed(c1))[|DecryptPrefix|..] == c1
    ensures Message(DecryptFailed(c1)) == Message(DecryptFailed(c2)) ==> c1 == c2
    ensures Message(DecodeFailed(c1)) == c1
  {
  }
}
