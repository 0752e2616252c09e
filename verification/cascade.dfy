/** The ordered cascade of structural decoders: each decoder is tried in
    turn on the same bytes, the first success wins, and when every decoder
    fails only the last one's error is kept. */
module Cascade {
  import opened Results
  import opened Keys
  import opened Pem

  /** The structural decoders load.go calls. */
  datatype Format =
    | Pkcs1Private      // x509.ParsePKCS1PrivateKey (RFC 8017 Appendix A.1.2)
    | Pkcs8Private      // x509.ParsePKCS8PrivateKey (RFC 5208 section 5)
    | PkixPublic        // x509.ParsePKIXPublicKey (RFC 5280 section 4.1.2.7)
    | RawPrivate        // asn1.Unmarshal into an rsa.PrivateKey
    | RawPublic         // asn1.Unmarshal into an rsa.PublicKey

  /** The foreign parsers, each typed by what it can return. They are opaque:
      the model only relies on them being deterministic functions of the bytes. */
  datatype Decoders = Decoders(
    pkcs1Private: Bytes -> Result<PrivateKey, string>,
    pkcs8Private: Bytes -> Result<AnyKey, string>,
    pkixPublic: Bytes -> Result<AnyKey, string>,
    rawPrivate: Bytes -> Result<PrivateKey, string>,
    rawPublic: Bytes -> Result<PublicKey, string>)

  /** Order of the private loader: PKCS #1, PKCS #8, raw ASN.1. */
  const PrivateOrder: seq<Format> := [Pkcs1Private, Pkcs8Private, RawPrivate]

  /** Order of the public loader: PKIX, PKCS #1, PKCS #8, raw ASN.1. */
  const PublicOrder: seq<Format> := [PkixPublic, Pkcs1Private, Pkcs8Private, RawPublic]

  /** One decoder's outcome, with its result stored in the untyped key: the
      PKCS #1 and raw decoders can only produce RSA keys, the PKCS #8 and
      PKIX decoders hand back whatever key type they found. */
  function Decode(d: Decoders, f: Format, b: Bytes): (r: Result<AnyKey, string>)
    ensures (f == Pkcs1Private || f == RawPrivate) && r.Ok? ==> r.value.RsaPrivate?
    ensures f == RawPublic && r.Ok? ==> r.value.RsaPublic?
    ensures f == Pkcs1Private ==> r.Ok? == d.pkcs1Private(b).Ok?
    ensures f == RawPrivate ==> r.Ok? == d.rawPrivate(b).Ok?
    ensures f == RawPublic ==> r.Ok? == d.rawPublic(b).Ok?
    ensures f == Pkcs1Private && r.Ok? ==> r.value == RsaPrivate(d.pkcs1Private(b).value)
    ensures f == Pkcs1Private && r.Err? ==> r.error == d.pkcs1Private(b).error
    ensures f == RawPrivate && r.Ok? ==> r.value == RsaPrivate(d.rawPrivate(b).value)
    ensures f == RawPrivate && r.Err? ==> r.error == d.rawPrivate(b).error
    ensures f == RawPublic && r.Ok? ==> r.value == RsaPublic(d.rawPublic(b).value)
    ensures f == RawPublic && r.Err? ==> r.error == d.rawPublic(b).error
    ensures f == Pkcs8Private ==> r == d.pkcs8Private(b)
    ensures f == PkixPublic ==> r == d.pkixPublic(b)
  {
    match f
    case Pkcs1Private =>
      (match d.pkcs1Private(b) case Ok(k) => Ok(RsaPrivate(k)) case Err(m) => Err(m))
    case Pkcs8Private => d.pkcs8Private(b)
    case PkixPublic => d.pkixPublic(b)
    case RawPrivate =>
      (match d.rawPrivate(b) case Ok(k) => Ok(RsaPrivate(k)) case Err(m) => Err(m))
    case RawPublic =>
      (match d.rawPublic(b) case Ok(k) => Ok(RsaPublic(k)) case Err(m) => Err(m))
  }

  /** What a cascade produced, and the decoders it ran, in order. */
  datatype Attempt = Attempt(outcome: Result<AnyKey, string>, tried: seq<Format>)

  /** Runs the decoders of `order` on `b` until one succeeds. The decoders run
      form a non-empty prefix of `order`; all but the last of them failed; the
      outcome is the last one's; and when the outcome is an error, every
      decoder ran. */
  function Run(d: Decoders, order: seq<Format>, b: Bytes): (r: Attempt)
    requires |order| > 0
    ensures 0 < |r.tried| <= |order| && r.tried == order[..|r.tried|]
    ensures forall j :: 0 <= j < |r.tried| - 1 ==> Decode(d, order[j], b).Err?
    ensures r.outcome == Decode(d, order[|r.tried| - 1], b)
    ensures r.outcome.Err? ==> r.tried == order
    decreases |order|
  {
    var first := Decode(d, order[0], b);
    if first.Ok? || |order| == 1 then
      Attempt(first, [order[0]])
    else
      var rest := Run(d, order[1..], b);
      Attempt(rest.outcome, [order[0]] + rest.tried)
  }

  /** The first decoder that succeeds decides the outcome, and no decoder
      after it is run. */
  lemma FirstSuccessWins(d: Decoders, order: seq<Format>, b: Bytes, i: nat)
    requires i < |order|
    requires Decode(d, order[i], b).Ok?
    requires forall j :: 0 <= j < i ==> Decode(d, order[j], b).Err?
    ensures Run(d, order, b) == Attempt(Decode(d, order[i], b), order[..i + 1])
  {
    var r := Run(d, order, b);
    assert |r.tried| == i + 1;
  }

  /** When every decoder fails, all of them are run and the error reported is
      the last decoder's own error; the earlier errors are dropped. */
  lemma AllFailKeepsLastError(d: Decoders, order: seq<Format>, b: Bytes)
    requires |order| > 0
    requires forall j :: 0 <= j < |order| ==> Decode(d, order[j], b).Err?
    ensures Run(d, order, b) == Attempt(Decode(d, order[|order| - 1], b), order)
  {
  }

  /** The private cascade spelled out as load.go nests it. */
  lemma PrivateCascade(d: Decoders, b: Bytes)
    ensures d.pkcs1Private(b).Ok? ==>
      Run(d, PrivateOrder, b) == Attempt(Ok(RsaPrivate(d.pkcs1Private(b).value)), [Pkcs1Private])
    ensures d.pkcs1Private(b).Err? && d.pkcs8Private(b).Ok? ==>
      Run(d, PrivateOrder, b) == Attempt(d.pkcs8Private(b), [Pkcs1Private, Pkcs8Private])
    ensures d.pkcs1Private(b).Err? && d.pkcs8Private(b).Err? && d.rawPrivate(b).Ok? ==>
      Run(d, PrivateOrder, b) == Attempt(Ok(RsaPrivate(d.rawPrivate(b).value)), PrivateOrder)
    ensures d.pkcs1Private(b).Err? && d.pkcs8Private(b).Err? && d.rawPrivate(b).Err? ==>
      Run(d, PrivateOrder, b) == Attempt(Err(d.rawPrivate(b).error), PrivateOrder)
  {
    var o := PrivateOrder;
    if d.pkcs1Private(b).Ok? {
      FirstSuccessWins(d, o, b, 0);
    } else if d.pkcs8Private(b).Ok? {
      FirstSuccessWins(d, o, b, 1);
    } else if d.rawPrivate(b).Ok? {
      FirstSuccessWins(d, o, b, 2);
    } else {
      AllFailKeepsLastError(d, o, b);
    }
  }

  /** The public cascade spelled out as load.go nests it. */
  lemma PublicCascade(d: Decoders, b: Bytes)
    ensures d.pkixPublic(b).Ok? ==>
      Run(d, PublicOrder, b) == Attempt(d.pkixPublic(b), [PkixPublic])
    ensures d.pkixPublic(b).Err? && d.pkcs1Private(b).Ok? ==>
      Run(d, PublicOrder, b) == Attempt(Ok(RsaPrivate(d.pkcs1Private(b).value)), [PkixPublic, Pkcs1Private])
    ensures d.pkixPublic(b).Err? && d.pkcs1Private(b).Err? && d.pkcs8Private(b).Ok? ==>
      Run(d, PublicOrder, b) == Attempt(d.pkcs8Private(b), [PkixPublic, Pkcs1Private, Pkcs8Private])
    ensures d.pkixPublic(b).Err? && d.pkcs1Private(b).Err? && d.pkcs8Private(b).Err? && d.rawPublic(b).Ok? ==>
      Run(d, PublicOrder, b) == Attempt(Ok(RsaPublic(d.rawPublic(b).value)), PublicOrder)
    ensures d.pkixPublic(b).Err? && d.pkcs1Private(b).Err? && d.pkcs8Private(b).Err? && d.rawPublic(b).Err? ==>
      Run(d, PublicOrder, b) == Attempt(Err(d.rawPublic(b).error), PublicOrder)
  {
    var o := PublicOrder;
    if d.pkixPublic(b).Ok? {
      FirstSuccessWins(d, o, b, 0);
    } else if d.pkcs1Private(b).Ok? {
      FirstSuccessWins(d, o, b, 1);
    } else if d.pkcs8Private(b).Ok? {
      FirstSuccessWins(d, o, b, 2);
    } else if d.rawPublic(b).Ok? {
      FirstSuccessWins(d, o, b, 3);
    } else {
      AllFailKeepsLastError(d, o, b);
    }
  }
}
