/** The two loaders of load.go: the envelope check, the optional decryption,
    the exact-match dispatch on the PEM label, the decoder cascade and the
    narrowing to RSA, sharing one definition parameterised by path. */
module Load {
  import opened Results
  import opened Errors
  import opened Keys
  import opened Pem
  import opened Cascade

  /** Go's named results `(key, err)`, with the foreign calls the loader
      made: whether it called the decryption routine, and which decoders it
      ran, in order. */
  datatype Loaded<K> = Loaded(key: K, err: Option<LoadError>, decryptCalled: bool, tried: seq<Format>)

  /** DecryptPEMBlock: the block and password in, a clear block or the
      failure's message out. */
  type Decrypter = (Block, string) -> Result<Block, string>

  /** The decryption routine is called exactly when a block was found and it
      carries the encryption header. */
  predicate Encrypted(env: Option<Block>) {
    env.Some? && env.value.encrypted
  }

  /** What the envelope and decryption gate lets through, and whether it
      called the decryption routine. */
  datatype Gate = Gate(outcome: Result<Block, LoadError>, decryptCalled: bool)

  /** The envelope and decryption gate. No block is the envelope error. A
      block with the encryption header, and only such a block, is handed to
      the decryption routine: its failure is wrapped with the cause kept, its
      success replaces the block. A clear block passes through untouched. */
  function Open(env: Option<Block>, password: string, decrypt: Decrypter): (g: Gate)
    ensures g.decryptCalled <==> Encrypted(env)
    ensures env.None? ==> g.outcome == Err(InvalidPem)
    ensures env.Some? && !g.decryptCalled ==> g.outcome == Ok(env.value)
    ensures g.decryptCalled ==> (g.outcome.Ok? <==> decrypt(env.value, password).Ok?)
    ensures g.decryptCalled && g.outcome.Ok? ==> g.outcome.value == decrypt(env.value, password).value
    ensures g.decryptCalled && g.outcome.Err? ==> g.outcome.error == DecryptFailed(decrypt(env.value, password).error)
  {
    match env
    case None => Gate(Err(InvalidPem), false)
    case Some(block) =>
      if !block.encrypted then Gate(Ok(block), false)
      else
        match decrypt(block, password)
        case Ok(clear) => Gate(Ok(clear), true)
        case Err(cause) => Gate(Err(DecryptFailed(cause)), true)
  }

  /** What follows the cascade. A cascade that ran out of decoders reports
      the last decoder's error as is; a decoded key goes through the type
      switch, and only a key the switch accepts is returned. */
  function Finish<K>(narrow: AnyKey -> Result<K, LoadError>, zero: K, decryptCalled: bool, a: Attempt): (r: Loaded<K>)
    ensures r.tried == a.tried && r.decryptCalled == decryptCalled
    ensures r.err.None? <==> a.outcome.Ok? && narrow(a.outcome.value).Ok?
    ensures r.err.None? ==> r.key == narrow(a.outcome.value).value
    ensures a.outcome.Err? ==> r.err == Some(DecodeFailed(a.outcome.error))
    ensures a.outcome.Ok? && narrow(a.outcome.value).Err? ==> r.err == Some(narrow(a.outcome.value).error)
    ensures r.err.Some? ==> r.key == zero
  {
    match a.outcome
    case Err(cause) => Loaded(zero, Some(DecodeFailed(cause)), decryptCalled, a.tried)
    case Ok(k) =>
      match narrow(k)
      case Ok(key) => Loaded(key, None, decryptCalled, a.tried)
      case Err(e) => Loaded(zero, Some(e), decryptCalled, a.tried)
  }

  /** One loader. `labels` are the accepted PEM labels, `order` the decoders
      of the cascade, `narrow` the type switch, `zero` the key's zero value.
      The key is the zero value whenever an error is reported, a key is only
      reported after some decoder ran, the decryption routine is called
      exactly for an encrypted block, and the decoders run are a prefix of
      `order`. */
  function Load<K(==)>(labels: set<string>, order: seq<Format>, narrow: AnyKey -> Result<K, LoadError>, zero: K,
                       env: Option<Block>, password: string, decrypt: Decrypter, d: Decoders): (r: Loaded<K>)
    requires |order| > 0
    ensures r.err.Some? ==> r.key == zero
    ensures r.err.None? ==> |r.tried| > 0
    ensures r.decryptCalled <==> Encrypted(env)
    ensures |r.tried| <= |order| && r.tried == order[..|r.tried|]
  {
    var g := Open(env, password, decrypt);
    match g.outcome
    case Err(e) => Loaded(zero, Some(e), g.decryptCalled, [])
    case Ok(block) =>
      if block.blockType !in labels then
        Loaded(zero, Some(UnsupportedBlockType(block.blockType)), g.decryptCalled, [])
      else
        Finish(narrow, zero, g.decryptCalled, Run(d, order, block.bytes))
  }

  /** Proof step: once the gate let a block through with an accepted label,
      the loader's result is the cascade's, finished by the type switch. */
  lemma LoadAccepted<K>(labels: set<string>, order: seq<Format>, narrow: AnyKey -> Result<K, LoadError>, zero: K,
                            env: Option<Block>, password: string, decrypt: Decrypter, d: Decoders, block: Block)
    requires |order| > 0
    requires Open(env, password, decrypt).outcome == Ok(block) && block.blockType in labels
    ensures Load(labels, order, narrow, zero, env, password, decrypt, d)
      == Finish(narrow, zero, Encrypted(env), Run(d, order, block.bytes))
  {
  }

  /** LoadPrivateKey on an envelope result: `env` is what pem.Decode found in
      the whitespace-trimmed bytes. */
  function LoadPrivateKey(env: Option<Block>, password: string, decrypt: Decrypter, d: Decoders): (r: Loaded<PrivateKey>)
    ensures r.err.Some? ==> r.key == ZeroPrivate
    ensures r.decryptCalled <==> Encrypted(env)
    ensures |r.tried| <= 3 && r.tried == PrivateOrder[..|r.tried|]
  {
    Load(PrivateLabels, PrivateOrder, NarrowPrivate, ZeroPrivate, env, password, decrypt, d)
  }

  /** LoadPublicKey on an envelope result. */
  function LoadPublicKey(env: Option<Block>, password: string, decrypt: Decrypter, d: Decoders): (r: Loaded<PublicKey>)
    ensures r.err.Some? ==> r.key == ZeroPublic
    ensures r.decryptCalled <==> Encrypted(env)
    ensures |r.tried| <= 4 && r.tried == PublicOrder[..|r.tried|]
  {
    Load(PublicLabels, PublicOrder, NarrowPublic, ZeroPublic, env, password, decrypt, d)
  }

  /** Without a PEM block both loaders fail with the envelope error and a
      zero key, and call neither the decryption nor any decoder. */
  lemma NoPemBlock(password: string, decrypt: Decrypter, d: Decoders)
    ensures LoadPrivateKey(None, password, decrypt, d) == Loaded(ZeroPrivate, Some(InvalidPem), false, [])
    ensures LoadPublicKey(None, password, decrypt, d) == Loaded(ZeroPublic, Some(InvalidPem), false, [])
  {
  }

  /** A failed decryption is reported, wrapped, before the label is looked
      at: whatever the label, no decoder runs and the key is zero. */
  lemma DecryptionFailure(block: Block, password: string, decrypt: Decrypter, d: Decoders)
    requires block.encrypted && decrypt(block, password).Err?
    ensures LoadPrivateKey(Some(block), password, decrypt, d)
      == Loaded(ZeroPrivate, Some(DecryptFailed(decrypt(block, password).error)), true, [])
    ensures LoadPublicKey(Some(block), password, decrypt, d)
      == Loaded(ZeroPublic, Some(DecryptFailed(decrypt(block, password).error)), true, [])
  {
  }

  /** A successful decryption replaces the block: the loaders then behave
      exactly as on the clear block (its label and bytes), except that the
      decryption call is recorded. */
  lemma DecryptedBlockReplacesOriginal(block: Block, password: string, decrypt: Decrypter, d: Decoders)
    requires block.encrypted && decrypt(block, password).Ok?
    ensures var clear := decrypt(block, password).value.(encrypted := false);
      LoadPrivateKey(Some(block), password, decrypt, d)
        == LoadPrivateKey(Some(clear), password, decrypt, d).(decryptCalled := true)
    ensures var clear := decrypt(block, password).value.(encrypted := false);
      LoadPublicKey(Some(block), password, decrypt, d)
        == LoadPublicKey(Some(clear), password, decrypt, d).(decryptCalled := true)
  {
    var clear := decrypt(block, password).value.(encrypted := false);
    if clear.blockType in PrivateLabels {
      LoadAccepted(PrivateLabels, PrivateOrder, NarrowPrivate, ZeroPrivate, Some(block), password, decrypt, d,
                   decrypt(block, password).value);
      LoadAccepted(PrivateLabels, PrivateOrder, NarrowPrivate, ZeroPrivate, Some(clear), password, decrypt, d, clear);
    }
    if clear.blockType in PublicLabels {
      LoadAccepted(PublicLabels, PublicOrder, NarrowPublic, ZeroPublic, Some(block), password, decrypt, d,
                   decrypt(block, password).value);
      LoadAccepted(PublicLabels, PublicOrder, NarrowPublic, ZeroPublic, Some(clear), password, decrypt, d, clear);
    }
  }

  /** A block without the encryption header is never decrypted: the password
      and the decryption routine do not affect either loader's result. */
  lemma ClearBlockIgnoresPassword(block: Block, p1: string, p2: string, dec1: Decrypter, dec2: Decrypter, d: Decoders)
    requires !block.encrypted
    ensures LoadPrivateKey(Some(block), p1, dec1, d) == LoadPrivateKey(Some(block), p2, dec2, d)
    ensures LoadPublicKey(Some(block), p1, dec1, d) == LoadPublicKey(Some(block), p2, dec2, d)
    ensures !LoadPrivateKey(Some(block), p1, dec1, d).decryptCalled
    ensures !LoadPublicKey(Some(block), p1, dec1, d).decryptCalled
  {
  }

  /** The label dispatch is an exact match against each path's label set,
      made on the (decrypted) block: a label is reported unsupported if and
      only if it is outside the set. */
  lemma BlockTypeDispatch(env: Option<Block>, password: string, decrypt: Decrypter, d: Decoders, block: Block)
    requires Open(env, password, decrypt).outcome == Ok(block)
    ensures LoadPrivateKey(env, password, decrypt, d).err == Some(UnsupportedBlockType(block.blockType))
      <==> block.blockType !in PrivateLabels
    ensures LoadPublicKey(env, password, decrypt, d).err == Some(UnsupportedBlockType(block.blockType))
      <==> block.blockType !in PublicLabels
  {
  }

  /** An unsupported label stops the loader before the cascade: no decoder
      is called, the key is zero, and the decoders cannot change the result. */
  lemma UnsupportedBlockTypeSkipsDecoders(env: Option<Block>, password: string, decrypt: Decrypter,
                                          d1: Decoders, d2: Decoders, block: Block)
    requires Open(env, password, decrypt).outcome == Ok(block)
    ensures block.blockType !in PrivateLabels ==>
      LoadPrivateKey(env, password, decrypt, d1)
        == LoadPrivateKey(env, password, decrypt, d2)
        == Loaded(ZeroPrivate, Some(UnsupportedBlockType(block.blockType)), Encrypted(env), [])
    ensures block.blockType !in PublicLabels ==>
      LoadPublicKey(env, password, decrypt, d1)
        == LoadPublicKey(env, password, decrypt, d2)
        == Loaded(ZeroPublic, Some(UnsupportedBlockType(block.blockType)), Encrypted(env), [])
  {
  }

  /** The private cascade: PKCS #1 first, then PKCS #8, then raw ASN.1, each
      tried only after all earlier ones failed, and the first success is the
      one narrowed and returned. */
  lemma PrivateDecoderOrder(env: Option<Block>, password: string, decrypt: Decrypter, d: Decoders, block: Block)
    requires Open(env, password, decrypt).outcome == Ok(block) && block.blockType in PrivateLabels
    ensures var b, e, r := block.bytes, Encrypted(env), LoadPrivateKey(env, password, decrypt, d);
      && (d.pkcs1Private(b).Ok? ==>
            r == Loaded(d.pkcs1Private(b).value, None, e, [Pkcs1Private]))
      && (d.pkcs1Private(b).Err? && d.pkcs8Private(b).Ok? && d.pkcs8Private(b).value.RsaPrivate? ==>
            r == Loaded(d.pkcs8Private(b).value.priv, None, e, [Pkcs1Private, Pkcs8Private]))
      && (d.pkcs1Private(b).Err? && d.pkcs8Private(b).Err? && d.rawPrivate(b).Ok? ==>
            r == Loaded(d.rawPrivate(b).value, None, e, PrivateOrder))
  {
    PrivateCascade(d, block.bytes);
    LoadAccepted(PrivateLabels, PrivateOrder, NarrowPrivate, ZeroPrivate, env, password, decrypt, d, block);
  }

  /** The public cascade: PKIX first, then PKCS #1, then PKCS #8, then raw
      ASN.1 into an RSA public key, with the same first-success rule. */
  lemma PublicDecoderOrder(env: Option<Block>, password: string, decrypt: Decrypter, d: Decoders, block: Block)
    requires Open(env, password, decrypt).outcome == Ok(block) && block.blockType in PublicLabels
    ensures var b, e, r := block.bytes, Encrypted(env), LoadPublicKey(env, password, decrypt, d);
      && (d.pkixPublic(b).Ok? && d.pkixPublic(b).value.RsaPublic? ==>
            r == Loaded(d.pkixPublic(b).value.pub, None, e, [PkixPublic]))
      && (d.pkixPublic(b).Err? && d.pkcs1Private(b).Ok? ==>
            r == Loaded(d.pkcs1Private(b).value.pub, None, e, [PkixPublic, Pkcs1Private]))
      && (d.pkixPublic(b).Err? && d.pkcs1Private(b).Err? && d.pkcs8Private(b).Ok? && IsRsa(d.pkcs8Private(b).value) ==>
            r == Loaded(NarrowPublic(d.pkcs8Private(b).value).value, None, e, [PkixPublic, Pkcs1Private, Pkcs8Private]))
      && (d.pkixPublic(b).Err? && d.pkcs1Private(b).Err? && d.pkcs8Private(b).Err? && d.rawPublic(b).Ok? ==>
            r == Loaded(d.rawPublic(b).value, None, e, PublicOrder))
  {
    PublicCascade(d, block.bytes);
    LoadAccepted(PublicLabels, PublicOrder, NarrowPublic, ZeroPublic, env, password, decrypt, d, block);
  }

  /** On the public path an RSA private key from PKCS #1 or PKCS #8 (the only
      decoders that produce one) is reduced to exactly its public component
      (N, E). The last two clauses cover outcomes the modelled decoders allow
      but the library never returns: a private key from PKIX, a public key
      from PKCS #8. */
  lemma PublicComponentOfPrivateKey(env: Option<Block>, password: string, decrypt: Decrypter, d: Decoders, block: Block)
    requires Open(env, password, decrypt).outcome == Ok(block) && block.blockType in PublicLabels
    ensures var b, r := block.bytes, LoadPublicKey(env, password, decrypt, d);
      && (d.pkixPublic(b).Err? && d.pkcs1Private(b).Ok? ==>
            r.key == PublicKey(d.pkcs1Private(b).value.pub.n, d.pkcs1Private(b).value.pub.e))
      && (d.pkixPublic(b).Err? && d.pkcs1Private(b).Err? && d.pkcs8Private(b).Ok? && d.pkcs8Private(b).value.RsaPrivate? ==>
            r.key == PublicKey(d.pkcs8Private(b).value.priv.pub.n, d.pkcs8Private(b).value.priv.pub.e))
      && (d.pkixPublic(b).Ok? && d.pkixPublic(b).value.RsaPrivate? ==>
            r.key == d.pkixPublic(b).value.priv.pub)
      && (d.pkixPublic(b).Err? && d.pkcs1Private(b).Err? && d.pkcs8Private(b).Ok? && d.pkcs8Private(b).value.RsaPublic? ==>
            r.key == d.pkcs8Private(b).value.pub)
  {
    PublicCascade(d, block.bytes);
    LoadAccepted(PublicLabels, PublicOrder, NarrowPublic, ZeroPublic, env, password, decrypt, d, block);
  }

  /** When every decoder fails, the error returned is the raw ASN.1
      decoder's own error, earlier errors are dropped, all decoders were
      called, and the key is zero. */
  lemma ExhaustedCascade(env: Option<Block>, password: string, decrypt: Decrypter, d: Decoders, block: Block)
    requires Open(env, password, decrypt).outcome == Ok(block)
    ensures (block.blockType in PrivateLabels
      && d.pkcs1Private(block.bytes).Err? && d.pkcs8Private(block.bytes).Err? && d.rawPrivate(block.bytes).Err?) ==>
      LoadPrivateKey(env, password, decrypt, d)
        == Loaded(ZeroPrivate, Some(DecodeFailed(d.rawPrivate(block.bytes).error)), Encrypted(env), PrivateOrder)
    ensures (block.blockType in PublicLabels && d.pkixPublic(block.bytes).Err?
      && d.pkcs1Private(block.bytes).Err? && d.pkcs8Private(block.bytes).Err? && d.rawPublic(block.bytes).Err?) ==>
      LoadPublicKey(env, password, decrypt, d)
        == Loaded(ZeroPublic, Some(DecodeFailed(d.rawPublic(block.bytes).error)), Encrypted(env), PublicOrder)
  {
    if block.blockType in PrivateLabels {
      PrivateCascade(d, block.bytes);
      LoadAccepted(PrivateLabels, PrivateOrder, NarrowPrivate, ZeroPrivate, env, password, decrypt, d, block);
    }
    if block.blockType in PublicLabels {
      PublicCascade(d, block.bytes);
      LoadAccepted(PublicLabels, PublicOrder, NarrowPublic, ZeroPublic, env, password, decrypt, d, block);
    }
  }

  /** A decoder that succeeds with a non-RSA key ends the cascade: the error
      names the key's type, the key is zero, and no later decoder runs. */
  lemma NonRsaRejected(env: Option<Block>, password: string, decrypt: Decrypter, d: Decoders, block: Block)
    requires Open(env, password, decrypt).outcome == Ok(block)
    ensures var b := block.bytes;
      block.blockType in PrivateLabels && d.pkcs1Private(b).Err? && d.pkcs8Private(b).Ok?
      && !d.pkcs8Private(b).value.RsaPrivate? ==>
        LoadPrivateKey(env, password, decrypt, d)
          == Loaded(ZeroPrivate, Some(UnsupportedKeyType(TypeName(d.pkcs8Private(b).value))),
                    Encrypted(env), [Pkcs1Private, Pkcs8Private])
    ensures var b := block.bytes;
      block.blockType in PublicLabels && d.pkixPublic(b).Ok? && !IsRsa(d.pkixPublic(b).value) ==>
        LoadPublicKey(env, password, decrypt, d)
          == Loaded(ZeroPublic, Some(UnsupportedKeyType(TypeName(d.pkixPublic(b).value))),
                    Encrypted(env), [PkixPublic])
    ensures var b := block.bytes;
      block.blockType in PublicLabels && d.pkixPublic(b).Err? && d.pkcs1Private(b).Err?
      && d.pkcs8Private(b).Ok? && !IsRsa(d.pkcs8Private(b).value) ==>
        LoadPublicKey(env, password, decrypt, d)
          == Loaded(ZeroPublic, Some(UnsupportedKeyType(TypeName(d.pkcs8Private(b).value))),
                    Encrypted(env), [PkixPublic, Pkcs1Private, Pkcs8Private])
  {
    if block.blockType in PrivateLabels {
      PrivateCascade(d, block.bytes);
      LoadAccepted(PrivateLabels, PrivateOrder, NarrowPrivate, ZeroPrivate, env, password, decrypt, d, block);
    }
    if block.blockType in PublicLabels {
      PublicCascade(d, block.bytes);
      LoadAccepted(PublicLabels, PublicOrder, NarrowPublic, ZeroPublic, env, password, decrypt, d, block);
    }
  }

  /** Loading the public key from the bytes of a private key gives exactly
      the public component (N, E) of the key the private loader returns, as
      long as the PKIX decoder rejects those bytes and the private key came
      from the PKCS #1 or PKCS #8 decoder (the raw fallbacks of the two paths
      decode into different structures). */
  lemma PublicKeyOfPrivateKey(env: Option<Block>, password: string, decrypt: Decrypter, d: Decoders, block: Block)
    requires Open(env, password, decrypt).outcome == Ok(block) && block.blockType in PrivateLabels
    requires d.pkixPublic(block.bytes).Err?
    requires d.pkcs1Private(block.bytes).Ok? || d.pkcs8Private(block.bytes).Ok?
    ensures var priv := LoadPrivateKey(env, password, decrypt, d);
      priv.err.None? ==>
        LoadPublicKey(env, password, decrypt, d)
          == Loaded(PublicKey(priv.key.pub.n, priv.key.pub.e), None, Encrypted(env), [PkixPublic] + priv.tried)
  {
    LabelSets();
    var b := block.bytes;
    PrivateCascade(d, b);
    PublicCascade(d, b);
    LoadAccepted(PrivateLabels, PrivateOrder, NarrowPrivate, ZeroPrivate, env, password, decrypt, d, block);
    LoadAccepted(PublicLabels, PublicOrder, NarrowPublic, ZeroPublic, env, password, decrypt, d, block);
    if d.pkcs1Private(b).Err? {
      NarrowingAgrees(d.pkcs8Private(b).value);
    }
  }
}
