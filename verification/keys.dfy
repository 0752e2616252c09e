/** RSA key structures, the untyped decode result and the narrowing to RSA. */
module Keys {
  import opened Results
  import opened Errors

  /** Big integers are opaque here; only which field they sit in matters.
      Go's zero value (a nil *big.Int) is modelled as 0. */
  datatype PublicKey = PublicKey(n: int, e: int)

  /** rsa.PrivateKey: the embedded public part, D and the primes. */
  datatype PrivateKey = PrivateKey(pub: PublicKey, d: int, primes: seq<int>)

  const ZeroPublic: PublicKey := PublicKey(0, 0)
  const ZeroPrivate: PrivateKey := PrivateKey(ZeroPublic, 0, [])

  /** The `interface{}` a structural decoder hands back: one of the concrete
      key types the Go x509 parsers can produce. */
  datatype AnyKey =
    | RsaPrivate(priv: PrivateKey)
    | RsaPublic(pub: PublicKey)
    | EcdsaPrivate
    | EcdsaPublic
    | Ed25519Private
    | Ed25519Public
    | DsaPublic
    | EcdhPrivate
    | EcdhPublic

  predicate IsRsa(k: AnyKey) {
    k.RsaPrivate? || k.RsaPublic?
  }

  /** What `%T` prints for the dynamic type of the decoded key. */
  function TypeName(k: AnyKey): (name: string) {
    match k
    case RsaPrivate(_) => "*rsa.PrivateKey"
    case RsaPublic(_) => "*rsa.PublicKey"
    case EcdsaPrivate => "*ecdsa.PrivateKey"
    case EcdsaPublic => "*ecdsa.PublicKey"
    case Ed25519Private => "ed25519.PrivateKey"
    case Ed25519Public => "ed25519.PublicKey"
    case DsaPublic => "*dsa.PublicKey"
    case EcdhPrivate => "*ecdh.PrivateKey"
    case EcdhPublic => "*ecdh.PublicKey"
  }

  /** Distinct concrete types print distinctly, so the error names the
      algorithm that was actually found. */
  lemma TypeNameInjective(a: AnyKey, b: AnyKey)
    requires TypeName(a) == TypeName(b)
    ensures a.RsaPrivate? <==> b.RsaPrivate?
    ensures a.RsaPublic? <==> b.RsaPublic?
    ensures !a.RsaPrivate? && !a.RsaPublic? ==> a == b
  {
  }

  /** The type switch of the private path: only *rsa.PrivateKey passes,
      unchanged; every other type is an error naming it. */
  function NarrowPrivate(k: AnyKey): (r: Result<PrivateKey, LoadError>)
    ensures r.Ok? <==> k.RsaPrivate?
    ensures r.Ok? ==> k == RsaPrivate(r.value)
    ensures r.Err? ==> r.error == UnsupportedKeyType(TypeName(k))
  {
    match k
    case RsaPrivate(p) => Ok(p)
    case _ => Err(UnsupportedKeyType(TypeName(k)))
  }

  /** The type switch of the public path: an RSA public key passes unchanged,
      an RSA private key is cut down to its (N, E) part, and every other type
      is an error naming it. */
  function NarrowPublic(k: AnyKey): (r: Result<PublicKey, LoadError>)
    ensures r.Ok? <==> IsRsa(k)
    ensures k.RsaPublic? ==> r == Ok(k.pub)
    ensures k.RsaPrivate? ==> r == Ok(PublicKey(k.priv.pub.n, k.priv.pub.e))
    ensures r.Err? ==> r.error == UnsupportedKeyType(TypeName(k))
  {
    match k
    case RsaPublic(p) => Ok(p)
    case RsaPrivate(p) => Ok(p.pub)
    case _ => Err(UnsupportedKeyType(TypeName(k)))
  }

  /** The two switches agree: whatever the private path accepts, the public
      path accepts too and yields its public component; and a key the public
      path rejects is rejected by the private path with the same error. */
  lemma NarrowingAgrees(k: AnyKey)
    ensures NarrowPrivate(k).Ok? ==> NarrowPublic(k) == Ok(NarrowPrivate(k).value.pub)
    ensures NarrowPublic(k).Err? ==> NarrowPrivate(k) == Err(NarrowPublic(k).error)
  {
  }
}
