# gorsa key loading, modelled in Dafny

This project models the key-loading core of the Go package `gorsa`: the functions
`LoadPrivateKey` and `LoadPublicKey` in `load.go`. Each one takes PEM text and
a password and returns an RSA key (private or public) or an error. Both run the
same five stages in the same order:

1. **Envelope check.** Was a PEM block found at all? If not, the error is "Invalid PEM key file".
2. **Decryption.** A block with the legacy encryption header (the `DEK-Info` header of RFC 1421 section 4.6.1.3)
   is decrypted with the password. A failure is wrapped as
   "Error decrypting PEM block: " followed by the cause.
3. **Label dispatch.** The block's label is matched exactly:
   - the private loader accepts `PRIVATE KEY`, `ENCRYPTED PRIVATE KEY` and `RSA PRIVATE KEY`;
   - the public loader accepts those three plus `PUBLIC KEY` and `RSA PUBLIC KEY`
     (RFC 7468 sections 10, 11 and 13, plus the legacy PKCS #1 labels).
4. **Decoder cascade.** Structural decoders are tried in a fixed order.
   - Private: PKCS #1, then PKCS #8, then raw ASN.1 into an RSA private key.
   - Public: PKIX, then PKCS #1 private key, then PKCS #8, then raw ASN.1 into an RSA public key.
   - The first success wins. When all fail, the last decoder's error is returned.
5. **Narrowing.** Only RSA keys are accepted. On the public path an RSA private key
   is reduced to its (N, E) part.

The foreign calls are parameters of the model:
- the decoders, as the record `Cascade.Decoders` of pure functions of the block's bytes;
- the decryption routine, as `Load.Decrypter`;
- the envelope decoder, as its result, an `Option<Block>`.

Each loader returns Go's pair `(key, err)` plus the foreign calls it made: whether
decryption was called, and which decoders ran, in order. That record is what the
ordering and short-circuit properties are stated about.

Files:
- `results.dfy`: `Option` and `Result`.
- `errors.dfy`: the error kinds and their messages.
- `keys.dfy`: the RSA key structures, the untyped decode result and the two type switches.
- `pem.dfy`: the PEM block and the label sets.
- `cascade.dfy`: the ordered decoder cascade, shared by both loaders.
- `load.dfy`: the gate, the dispatch, the two loaders and the properties relating them.

## Model

| member | source | states |
|---|---|---|
| Cascade.Run | load.go:43-58 | The decoders run form a non-empty prefix of the order. Every decoder run before the last one failed. The outcome is the last decoder's. When the outcome is an error, every decoder ran. |
| Cascade.Decode | load.go:43-56 | Each decoder returns its parser's key or its parser's error unchanged. The PKCS #1 and raw private-key decoders wrap the key as an RSA private key and the raw public-key decoder as an RSA public key. PKCS #8 and PKIX hand back whatever key type their parser found. |
| Cascade.FirstSuccessWins | load.go:115-133 | If decoder i succeeds and all earlier ones fail, the cascade returns decoder i's key. Exactly decoders 0..i are run. |
| Cascade.AllFailKeepsLastError | load.go:49-54 | When every decoder fails, all of them run and only the last decoder's error is reported. |
| Cascade.PrivateCascade | load.go:42-58 | The private cascade, case by case as the nested ifs read: PKCS #1 success; else PKCS #8 success; else raw ASN.1 success; else the raw error. Each case lists which decoders ran. |
| Cascade.PublicCascade | load.go:114-133 | The public cascade, case by case: PKIX, then PKCS #1, then PKCS #8, then raw ASN.1 into an RSA public key. Each case lists which decoders ran. |
| Keys.NarrowPrivate | load.go:61-66 | Accepts exactly an RSA private key and returns it unchanged. Any other type gives an unsupported-key-type error naming that type. |
| Keys.NarrowPublic | load.go:136-146 | Accepts exactly the RSA key types. A public key is returned unchanged. A private key gives its (N, E). Any other type gives an error naming it. |
| Keys.NarrowingAgrees | load.go:137-140 | A key the private switch accepts is accepted by the public switch too, which yields its public part. A key the public switch rejects gets the same error from both switches. |
| Keys.TypeNameInjective | load.go:65 | The `%T` names that `Keys.TypeName` gives are distinct for distinct concrete key types, so the error identifies the type found. |
| Errors.Message | load.go:21-29 | The envelope error reads "Invalid PEM key file". The decryption error is the fixed prefix followed by the cause. The unsupported block type and key type messages name the label and the type after their fixed prefixes. An exhausted cascade's message is the decoder's own. |
| Errors.MessageKeepsCause | load.go:27-30 | The decryption error is the fixed prefix followed by the cause verbatim, so different causes give different messages. The exhausted-cascade message is the decoder's own message. |
| Pem.LabelSets | load.go:108-111 | The public label set is the private set plus exactly `PUBLIC KEY` and `RSA PUBLIC KEY`; the sets have three and five members, so each holds exactly these strings and `CERTIFICATE` is in neither. |
| Load.Open | load.go:19-32 | No block gives the envelope error. The decryption routine is called exactly for a block carrying the encryption header. Its failure is wrapped with the cause kept, and its success replaces the block. A clear block passes through unchanged. |
| Load.Finish | load.go:52-66 | An exhausted cascade reports the last decoder's error as is. A decoded key goes through the type switch, and a key is returned only when the switch accepts it. On any error the key is the zero value. |
| Load.Load | load.go:15-72 | For either loader: an error always comes with the zero key; a key is only returned after some decoder ran; decryption is called exactly for an encrypted block; the decoders run are a prefix of the path's order. |
| Load.LoadPrivateKey | load.go:15-72 | On error the key is the zero private key. Decryption is called exactly for encrypted blocks. The decoders run are a prefix of PKCS #1, PKCS #8, raw. |
| Load.LoadPublicKey | load.go:85-152 | On error the key is the zero public key. Decryption is called exactly for encrypted blocks. The decoders run are a prefix of PKIX, PKCS #1, PKCS #8, raw. |
| Load.NoPemBlock | load.go:19-23 | With no PEM block, both loaders return "Invalid PEM key file" and the zero key. Neither decryption nor any decoder is called. |
| Load.DecryptionFailure | load.go:26-32 | A failed decryption gives the wrapped decryption error on both paths, whatever the label. No decoder runs and the key is zero. |
| Load.DecryptedBlockReplacesOriginal | load.go:27 | After a successful decryption, both loaders behave exactly as on the decrypted block, its label included, apart from recording the decryption call. |
| Load.ClearBlockIgnoresPassword | load.go:96-102 | For a block without the encryption header, neither the password nor the decryption routine changes either loader's result, and decryption is never called. |
| Load.BlockTypeDispatch | load.go:38-69 | After the gate, a loader reports an unsupported PEM block type (naming the decrypted block's label) if and only if the label is outside that path's set. |
| Load.UnsupportedBlockTypeSkipsDecoders | load.go:147-148 | An unsupported label gives the zero key, no decoder runs, and the result is the same whatever the decoders are. |
| Load.PrivateDecoderOrder | load.go:43-63 | On the private path, the first successful decoder (PKCS #1, then PKCS #8, then raw) supplies the returned key unchanged. The decoders run stop at that decoder. |
| Load.PublicDecoderOrder | load.go:115-140 | On the public path, the first successful decoder (PKIX, then PKCS #1, then PKCS #8, then raw) supplies the key, after the type switch: an RSA public key as is, a PKCS #1 private key as its public component, and a PKCS #8 RSA key as the switch narrows it. The decoders run stop there. |
| Load.PublicComponentOfPrivateKey | load.go:137-140 | On the public path, an RSA private key from PKCS #1 or PKCS #8 (the only decoders that produce one) yields exactly its (N, E). |
| Load.ExhaustedCascade | load.go:123-128 | When every decoder of a path fails, the error is the raw ASN.1 decoder's own error and every decoder ran. The key is zero. |
| Load.NonRsaRejected | load.go:61-66 | A non-RSA key from PKCS #8 (private path) or from PKIX or PKCS #8 (public path) is rejected. The error names its type, the key is zero, and no later decoder runs. |
| Load.PublicKeyOfPrivateKey | load.go:108-140 | For a private-key block that PKIX rejects and that PKCS #1 or PKCS #8 decodes, the public loader returns exactly the (N, E) of the key the private loader returns. Its decoder list is PKIX followed by the private loader's list. |

## Left out

- `LoadPrivateKeyFromFile` and `LoadPublicKeyFromFile` (load.go:75-82, 155-162) are not modelled: they only read a file. In the code, the `ReadFile` error is overwritten by the delegated call, so a read failure is not reported as such (it surfaces as the empty-input envelope error).
- `bytes.TrimSpace` and `pem.Decode` are standard-library byte handling. The model takes their result, a block or none, as input.
- The structural decoders (`x509.ParsePKCS1PrivateKey`, `x509.ParsePKCS8PrivateKey`, `x509.ParsePKIXPublicKey`, `asn1.Unmarshal`) are foreign parsers and are opaque functions of the bytes. Trailing bytes ignored by `asn1.Unmarshal` are not modelled.
- Cascade.Decode: the PKIX and PKCS #8 decoders may return any `AnyKey` variant, more than the library does (PKIX never yields a private key, PKCS #8 never a public key); the lemmas about those impossible outcomes are sound but describe inputs the program never produces.
- `DecryptPEMBlock` is defined outside `load.go` and is an opaque parameter. `x509.IsEncryptedPEMBlock` is the block's `encrypted` flag.
- Big-integer contents of keys are opaque `int`s. Go's nil `*big.Int` zero value is modelled as 0. The `Precomputed` field of `rsa.PrivateKey` is not modelled.
- Errors.Message: `%q` is modelled as plain double quotes without Go's escaping, and `%T` as the fixed type names of `Keys.TypeName`.
