/**
 * The prf+ key derivation object of the OpenSSL plugin: IKEv2 prf+
 * (section 2.13 of RFC 7296) realised as HKDF-Expand only (section 2.3 of
 * RFC 5869).
 *
 * OpenSSL and strongSwan's algorithm tables are foreign code. They are the
 * value `Library`, a record of functions that may fail, and every object
 * keeps the library it was created with.
 */
module OpensslKdf {
  import opened Octets

  /** key_derivation_function_t. */
  datatype KdfAlgorithm = KdfUndefined | KdfPrf | KdfPrfPlus

  /** kdf_param_t. KdfParamOther stands for any other value passed to set_param. */
  datatype KdfParam = KdfParamKey | KdfParamSalt | KdfParamOther(code: int)

  /** pseudo_random_function_t, an identifier from a closed enumeration. */
  type PrfAlgorithm = int

  /** An EVP_MD handle, known by the short name it was looked up with. */
  datatype Digest = Digest(name: string)

  /** The modes of OpenSSL's HKDF method. */
  datatype HkdfMode = ExtractAndExpand | ExtractOnly | ExpandOnly

  /** What an EVP_PKEY_CTX for EVP_PKEY_HKDF holds: the parameters set so far. */
  datatype HkdfCtx = HkdfCtx(md: Option<Digest>, mode: HkdfMode, key: seq<byte>, info: seq<byte>)

  /** The calls get_bytes issues on a context, in the order it issues them. */
  datatype CtxCall =
    | DeriveInit
    | SetMd(md: Digest)
    | SetMode(mode: HkdfMode)
    | SetKey(key: seq<byte>)
    | AddInfo(info: seq<byte>)
    | Derive(outLen: nat)

  /**
   * The foreign code the object depends on:
   *  - hashShortName: enum_to_name(hash_algorithm_short_names,
   *    hasher_algorithm_from_prf(prf)), None for a NULL name;
   *  - digestByName: EVP_get_digestbyname, None for NULL;
   *  - ctxNewOk: whether EVP_PKEY_CTX_new_id(EVP_PKEY_HKDF, NULL) yields a context;
   *  - accepts: whether OpenSSL returns a positive status for a call on a context;
   *  - okm: the i-th output byte of HKDF for a configured context.
   */
  datatype Library = Library(
    hashShortName: PrfAlgorithm -> Option<string>,
    digestByName: string -> Option<Digest>,
    ctxNewOk: bool,
    accepts: (HkdfCtx, CtxCall) -> bool,
    okm: (HkdfCtx, nat) -> byte)

  /** SIZE_MAX of a 64-bit size_t. */
  const SizeMax: nat := 0xFFFF_FFFF_FFFF_FFFF

  /** sizeof(buf) of the construction self-test. */
  const SelfTestLength: nat := 8

  /** The key set at construction: 32 ASCII '0' characters (0x30). */
  const PlaceholderKey: seq<byte> := seq(32, _ => 0x30)

  /** A context as EVP_PKEY_CTX_new_id returns it: nothing configured. */
  function NewCtx(): HkdfCtx
  {
    HkdfCtx(None, ExtractAndExpand, [], [])
  }

  /** The context after OpenSSL accepted `call`. Setting the key replaces it; adding info appends. */
  function Effect(ctx: HkdfCtx, call: CtxCall): HkdfCtx
  {
    match call
    case SetMd(md) => ctx.(md := Some(md))
    case SetMode(mode) => ctx.(mode := mode)
    case SetKey(key) => ctx.(key := key)
    case AddInfo(info) => ctx.(info := ctx.info + info)
    case _ => ctx
  }

  /** Issue `calls` in order, stopping at the first one OpenSSL rejects. */
  function Run(lib: Library, ctx: HkdfCtx, calls: seq<CtxCall>): Option<HkdfCtx>
    decreases |calls|
  {
    if calls == [] then Some(ctx)
    else if !lib.accepts(ctx, calls[0]) then None
    else Run(lib, Effect(ctx, calls[0]), calls[1..])
  }

  /** The configuration calls of get_bytes before EVP_PKEY_derive. */
  function Setup(md: Digest, key: seq<byte>, salt: seq<byte>): seq<CtxCall>
  {
    [DeriveInit, SetMd(md), SetMode(ExpandOnly), SetKey(key), AddInfo(salt)]
  }

  /** What EVP_PKEY_derive writes for `outLen` requested bytes. */
  function Output(lib: Library, ctx: HkdfCtx, outLen: nat): (out: seq<byte>)
    ensures |out| == outLen
  {
    var out := seq<byte>(outLen, i requires 0 <= i => lib.okm(ctx, i));
    out
  }

  /**
   * The outcome of get_bytes for a hasher, key, salt and length: a fresh
   * context, configured, then asked for `outLen` bytes. None is FALSE.
   */
  function Expand(lib: Library, md: Digest, key: seq<byte>, salt: seq<byte>, outLen: nat): (r: Option<seq<byte>>)
    ensures r.Some? ==> |r.value| == outLen
  {
    if !lib.ctxNewOk then None
    else
      match Run(lib, NewCtx(), Setup(md, key, salt))
      case None => None
      case Some(ctx) =>
        if lib.accepts(ctx, Derive(outLen)) then Some(Output(lib, ctx, outLen)) else None
  }

  /**
   * Expansion succeeds exactly when every OpenSSL call succeeds, each on the
   * context the previous calls left, and then its output is HKDF over a
   * context whose info is the salt and nothing else.
   */
  lemma ExpandSucceedsIff(lib: Library, md: Digest, key: seq<byte>, salt: seq<byte>, outLen: nat)
    ensures Expand(lib, md, key, salt, outLen).Some? <==>
      lib.ctxNewOk &&
      lib.accepts(NewCtx(), DeriveInit) &&
      lib.accepts(NewCtx(), SetMd(md)) &&
      lib.accepts(HkdfCtx(Some(md), ExtractAndExpand, [], []), SetMode(ExpandOnly)) &&
      lib.accepts(HkdfCtx(Some(md), ExpandOnly, [], []), SetKey(key)) &&
      lib.accepts(HkdfCtx(Some(md), ExpandOnly, key, []), AddInfo(salt)) &&
      lib.accepts(HkdfCtx(Some(md), ExpandOnly, key, salt), Derive(outLen))
    ensures Expand(lib, md, key, salt, outLen).Some? ==>
      Expand(lib, md, key, salt, outLen).value == Output(lib, HkdfCtx(Some(md), ExpandOnly, key, salt), outLen)
  {
    var calls := Setup(md, key, salt);
    var c0 := NewCtx();
    var c2 := HkdfCtx(Some(md), ExtractAndExpand, [], []);
    var c3 := HkdfCtx(Some(md), ExpandOnly, [], []);
    var c4 := HkdfCtx(Some(md), ExpandOnly, key, []);
    var c5 := HkdfCtx(Some(md), ExpandOnly, key, salt);
    assert Effect(c4, AddInfo(salt)) == c5;
    assert calls[1..][1..][1..][1..][1..] == [];
    assert Run(lib, c5, []) == Some(c5);
    assert Run(lib, c4, calls[1..][1..][1..][1..]) == if lib.accepts(c4, AddInfo(salt)) then Some(c5) else None;
    assert Run(lib, c3, calls[1..][1..][1..]) == if lib.accepts(c3, SetKey(key)) then Run(lib, c4, calls[1..][1..][1..][1..]) else None;
    assert Run(lib, c2, calls[1..][1..]) == if lib.accepts(c2, SetMode(ExpandOnly)) then Run(lib, c3, calls[1..][1..][1..]) else None;
    assert Run(lib, c0, calls[1..]) == if lib.accepts(c0, SetMd(md)) then Run(lib, c2, calls[1..][1..]) else None;
    assert Run(lib, c0, calls) == if lib.accepts(c0, DeriveInit) then Run(lib, c0, calls[1..]) else None;
  }

  /** Issuing `first` then `second` is issuing them one batch after the other. */
  lemma {:induction false} RunAppend(lib: Library, ctx: HkdfCtx, first: seq<CtxCall>, second: seq<CtxCall>)
    ensures Run(lib, ctx, first + second) ==
      match Run(lib, ctx, first)
      case None => None
      case Some(mid) => Run(lib, mid, second)
    decreases |first|
  {
    if first != [] {
      assert (first + second)[0] == first[0];
      assert (first + second)[1..] == first[1..] + second;
      if lib.accepts(ctx, first[0]) {
        RunAppend(lib, Effect(ctx, first[0]), first[1..], second);
      }
    } else {
      assert first + second == second;
    }
  }

  /**
   * The configuration calls on any context: the hasher, mode and key are
   * replaced, while the salt is appended to whatever info is already there.
   */
  lemma SetupOnContext(lib: Library, ctx: HkdfCtx, md: Digest, key: seq<byte>, salt: seq<byte>)
    requires Run(lib, ctx, Setup(md, key, salt)).Some?
    ensures Run(lib, ctx, Setup(md, key, salt)).value == HkdfCtx(Some(md), ExpandOnly, key, ctx.info + salt)
  {
    var calls := Setup(md, key, salt);
    var c2 := ctx.(md := Some(md));
    var c3 := c2.(mode := ExpandOnly);
    var c4 := c3.(key := key);
    var c5 := c4.(info := c4.info + salt);
    assert calls[1..][1..][1..][1..][1..] == [];
    assert Run(lib, c5, []) == Some(c5);
    assert Run(lib, c4, calls[1..][1..][1..][1..]) == if lib.accepts(c4, AddInfo(salt)) then Some(c5) else None;
    assert Run(lib, c3, calls[1..][1..][1..]) == if lib.accepts(c3, SetKey(key)) then Run(lib, c4, calls[1..][1..][1..][1..]) else None;
    assert Run(lib, c2, calls[1..][1..]) == if lib.accepts(c2, SetMode(ExpandOnly)) then Run(lib, c3, calls[1..][1..][1..]) else None;
    assert Run(lib, ctx, calls[1..]) == if lib.accepts(ctx, SetMd(md)) then Run(lib, c2, calls[1..][1..]) else None;
    assert Run(lib, ctx, calls) == if lib.accepts(ctx, DeriveInit) then Run(lib, ctx, calls[1..]) else None;
  }

  /**
   * Why the object keeps key and salt itself and builds a fresh context per
   * call: configuring one context twice leaves the concatenation of both
   * salts as its info, whereas each expansion derives from its own salt alone.
   */
  lemma ReusedContextAccumulates(lib: Library, md: Digest, key: seq<byte>, earlier: seq<byte>, later: seq<byte>, outLen: nat)
    requires Run(lib, NewCtx(), Setup(md, key, earlier) + Setup(md, key, later)).Some?
    ensures Run(lib, NewCtx(), Setup(md, key, earlier) + Setup(md, key, later)).value ==
      HkdfCtx(Some(md), ExpandOnly, key, earlier + later)
    ensures earlier != [] ==> Run(lib, NewCtx(), Setup(md, key, earlier) + Setup(md, key, later)).value.info != later
    ensures Expand(lib, md, key, later, outLen).Some? ==>
      Expand(lib, md, key, later, outLen).value == Output(lib, HkdfCtx(Some(md), ExpandOnly, key, later), outLen)
  {
    RunAppend(lib, NewCtx(), Setup(md, key, earlier), Setup(md, key, later));
    var first := Run(lib, NewCtx(), Setup(md, key, earlier));
    assert first.Some?;
    SetupOnContext(lib, NewCtx(), md, key, earlier);
    SetupOnContext(lib, first.value, md, key, later);
    assert |earlier + later| != |later| || earlier == [];
    ExpandSucceedsIff(lib, md, key, later, outLen);
  }

  /** When openssl_kdf_create returns an object rather than NULL. */
  predicate CreateSucceeds(lib: Library, algo: KdfAlgorithm, prf: PrfAlgorithm)
  {
    algo == KdfPrfPlus &&
    lib.hashShortName(prf).Some? &&
    lib.digestByName(lib.hashShortName(prf).value).Some? &&
    Expand(lib, lib.digestByName(lib.hashShortName(prf).value).value, PlaceholderKey, [], SelfTestLength).Some?
  }

  /** private_kdf_t: the prf+ object. */
  class Kdf {
    /** The foreign code this object calls into. */
    const lib: Library
    /** Hasher of the underlying PRF, chosen at construction. */
    const hasher: Digest
    /** Owned copy of the key. */
    var key: seq<byte>
    /** Owned copy of the salt, passed to HKDF as its info. */
    var salt: seq<byte>
    /** False once destroy has freed the object. */
    ghost var alive: bool

    /** INIT of openssl_kdf_create: the placeholder key and an empty salt. */
    constructor (lib: Library, hasher: Digest)
      ensures this.lib == lib && this.hasher == hasher
      ensures key == PlaceholderKey && salt == [] && alive
    {
      this.lib := lib;
      this.hasher := hasher;
      key := PlaceholderKey;
      salt := [];
      alive := true;
    }

    /** get_type: whatever the state, this object implements prf+. */
    function GetType(): (algo: KdfAlgorithm)
      ensures algo == KdfPrfPlus
    {
      KdfPrfPlus
    }

    /** get_length: the object reports no output limit. */
    function GetLength(): (limit: nat)
      ensures limit == SizeMax
    {
      SizeMax
    }

    /**
     * get_bytes: a fresh context per call, configured from the current
     * hasher, key and salt, writing `outLen` bytes into `buffer`.
     */
    method GetBytes(outLen: nat, buffer: array<byte>) returns (ok: bool)
      requires alive
      requires outLen <= buffer.Length
      modifies buffer
      ensures ok <==> Expand(lib, hasher, key, salt, outLen).Some?
      ensures ok ==> buffer[..outLen] == Expand(lib, hasher, key, salt, outLen).value
      ensures buffer[outLen..] == old(buffer[outLen..])
    {
      ExpandSucceedsIff(lib, hasher, key, salt, outLen);
      if !lib.ctxNewOk {
        return false;
      }
      var ctx := NewCtx();
      if !lib.accepts(ctx, DeriveInit) {
        return false;
      }
      ctx := Effect(ctx, DeriveInit);
      if !lib.accepts(ctx, SetMd(hasher)) {
        return false;
      }
      ctx := Effect(ctx, SetMd(hasher));
      if !lib.accepts(ctx, SetMode(ExpandOnly)) {
        return false;
      }
      ctx := Effect(ctx, SetMode(ExpandOnly));
      if !lib.accepts(ctx, SetKey(key)) {
        return false;
      }
      ctx := Effect(ctx, SetKey(key));
      if !lib.accepts(ctx, AddInfo(salt)) {
        return false;
      }
      ctx := Effect(ctx, AddInfo(salt));
      assert ctx == HkdfCtx(Some(hasher), ExpandOnly, key, salt);
      if !lib.accepts(ctx, Derive(outLen)) {
        return false;
      }
      forall i | 0 <= i < outLen {
        buffer[i] := lib.okm(ctx, i);
      }
      assert buffer[..outLen] == Output(lib, ctx, outLen);
      return true;
    }

    /**
     * allocate_bytes: a chunk of exactly `outLen` derived bytes, or FALSE
     * with the chunk freed (chunk_free leaves it empty).
     */
    method AllocateBytes(outLen: nat) returns (ok: bool, chunk: seq<byte>)
      requires alive
      ensures ok <==> Expand(lib, hasher, key, salt, outLen).Some?
      ensures ok ==> |chunk| == outLen && chunk == Expand(lib, hasher, key, salt, outLen).value
      ensures !ok ==> chunk == []
    {
      var buffer := new byte[outLen];
      ok := GetBytes(outLen, buffer);
      if ok {
        chunk := buffer[..];
      } else {
        chunk := [];
      }
    }

    /**
     * set_param: the key or the salt is replaced by a copy of `value`, the
     * old one cleared; any other kind is ignored. Always TRUE.
     */
    method SetParam(param: KdfParam, value: seq<byte>) returns (ok: bool)
      requires alive
      modifies this
      ensures ok && alive
      ensures key == (if param.KdfParamKey? then value else old(key))
      ensures salt == (if param.KdfParamSalt? then value else old(salt))
    {
      // chunk_clear of the old value, then chunk_clone of the new one
      match param {
        case KdfParamKey =>
          key := value;
        case KdfParamSalt =>
          salt := value;
        case KdfParamOther(_) =>
      }
      ok := true;
    }

    /** destroy: both secrets cleared, then the object freed. */
    method Destroy()
      requires alive
      modifies this
      ensures salt == [] && key == [] && !alive
    {
      salt := [];
      key := [];
      alive := false;
    }
  }

  /**
   * openssl_kdf_create: NULL unless the algorithm is prf+, the hash has a
   * short name, OpenSSL has that digest and an 8-byte self-test derivation
   * succeeds.
   */
  method Create(lib: Library, algo: KdfAlgorithm, prf: PrfAlgorithm) returns (kdf: Kdf?)
    ensures kdf != null <==> CreateSucceeds(lib, algo, prf)
    ensures kdf != null ==>
      fresh(kdf) && kdf.alive && kdf.lib == lib &&
      kdf.hasher == lib.digestByName(lib.hashShortName(prf).value).value &&
      kdf.key == PlaceholderKey && kdf.salt == [] && kdf.GetType() == algo
  {
    if algo != KdfPrfPlus {
      return null;
    }
    var name := lib.hashShortName(prf);
    if name.None? {
      return null;
    }
    var md := lib.digestByName(name.value);
    if md.None? {
      return null;
    }
    kdf := new Kdf(lib, md.value);
    var buf := new byte[SelfTestLength];
    var ok := kdf.GetBytes(SelfTestLength, buf);
    if !ok {
      kdf.Destroy();
      return null;
    }
  }

  /** Two derivations with no set_param between them give the same result. */
  method RepeatedDerivationsAgree(kdf: Kdf, outLen: nat) returns (first: Option<seq<byte>>, second: Option<seq<byte>>)
    requires kdf.alive
    ensures first == second
    ensures first.Some? ==> |first.value| == outLen
  {
    var ok, chunk := kdf.AllocateBytes(outLen);
    first := if ok then Some(chunk) else None;
    ok, chunk := kdf.AllocateBytes(outLen);
    second := if ok then Some(chunk) else None;
  }

  /**
   * Setting one salt, deriving, then setting another: the second derivation
   * is that of an object whose salt was only ever the second one.
   */
  method SaltReplacementIsolation(kdf: Kdf, earlier: seq<byte>, later: seq<byte>, outLen: nat)
    returns (ok: bool, chunk: seq<byte>)
    requires kdf.alive
    modifies kdf
    ensures kdf.alive && kdf.key == old(kdf.key) && kdf.salt == later
    ensures ok <==> Expand(kdf.lib, kdf.hasher, old(kdf.key), later, outLen).Some?
    ensures ok ==> chunk == Expand(kdf.lib, kdf.hasher, old(kdf.key), later, outLen).value
  {
    var _ := kdf.SetParam(KdfParamSalt, earlier);
    var _, _ := kdf.AllocateBytes(outLen);
    var _ := kdf.SetParam(KdfParamSalt, later);
    ok, chunk := kdf.AllocateBytes(outLen);
  }

  /** Setting one key, then another: derivation uses the second key alone. */
  method KeyReplacementNoMixing(kdf: Kdf, first: seq<byte>, second: seq<byte>, outLen: nat)
    returns (ok: bool, chunk: seq<byte>)
    requires kdf.alive
    modifies kdf
    ensures kdf.alive && kdf.key == second && kdf.salt == old(kdf.salt)
    ensures ok <==> Expand(kdf.lib, kdf.hasher, second, old(kdf.salt), outLen).Some?
    ensures ok ==> chunk == Expand(kdf.lib, kdf.hasher, second, old(kdf.salt), outLen).value
  {
    var _ := kdf.SetParam(KdfParamKey, first);
    var _ := kdf.SetParam(KdfParamKey, second);
    ok, chunk := kdf.AllocateBytes(outLen);
  }
}
