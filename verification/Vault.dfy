/**
 The encryption of account fields: sealing binds a value to its account and field, legacy values can still be
 opened, and upgrading keeps the plaintext. The cipher, the compressor and the text codec are parameters.
 */
module Vault {
  import opened Prelude

  type Bytes = seq<byte>

  datatype Suite = Suite(
    encrypt: (Bytes, Bytes, Bytes) -> Bytes,
    decrypt: (Bytes, Bytes, Bytes) -> Option<Bytes>,
    compress: Bytes -> Bytes,
    decompress: Bytes -> Option<Bytes>,
    encode: string -> Bytes,
    decode: Bytes -> Option<string>)

  predicate Ascii(s: string) {
    forall k :: 0 <= k < |s| ==> s[k] < 128 as char
  }

  /** What authenticated encryption, compression and UTF-8 promise; arguments are nonce, text and associated data. */
  ghost predicate Lawful(u: Suite) {
    && (forall n, raw, aad :: u.decrypt(n, u.encrypt(n, raw, aad), aad) == Some(raw))
    && (forall n, raw, aad, other :: other != aad ==> u.decrypt(n, u.encrypt(n, raw, aad), other) == None)
    && (forall raw :: u.decompress(u.compress(raw)) == Some(raw))
    && (forall s :: u.decode(u.encode(s)) == Some(s))
    && (forall s :: Ascii(s) ==> |u.encode(s)| == |s|)
  }

  const BOUND_PREFIX: Bytes := [0x54, 0x4C, 0x32, 0x00]
  const NONCE: nat := 12
  const MAX_CONTEXT: nat := 256
  const AAD_TAG: string := "token-loom:v2:"
  const LEGACY_AAD: string := "token-admin:v1"

  function Slice(b: Bytes, from: nat, to: nat): Bytes
    requires from <= to
  {
    if |b| <= from then [] else if |b| <= to then b[from..] else b[from..to]
  }

  predicate ContextOk(u: Suite, context: string) {
    context != "" && |u.encode(context)| <= MAX_CONTEXT
  }

  function Aad(u: Suite, context: string): Bytes {
    u.encode(AAD_TAG) + u.encode(context)
  }

  /** None where the code raises. */
  function Seal(u: Suite, value: string, context: string, nonce: Bytes): Option<Bytes> {
    if !ContextOk(u, context) then None
    else Some(BOUND_PREFIX + nonce + u.encrypt(nonce, u.compress(u.encode(value)), Aad(u, context)))
  }

  function Text(u: Suite, raw: Option<Bytes>): Option<string> {
    if raw.None? then None
    else
      var plain := u.decompress(raw.value);
      if plain.None? then None else u.decode(plain.value)
  }

  function Tail(b: Bytes, from: nat): Bytes {
    if |b| <= from then [] else b[from..]
  }

  function Open(u: Suite, value: Bytes, context: string): Option<string> {
    if value == [] then Some("")
    else if BOUND_PREFIX <= value then
      if !ContextOk(u, context) then None
      else Text(u, u.decrypt(Slice(value, 4, 4 + NONCE), Tail(value, 4 + NONCE), Aad(u, context)))
    else Text(u, u.decrypt(Slice(value, 0, NONCE), Tail(value, NONCE), u.encode(LEGACY_AAD)))
  }

  predicate NeedsUpgrade(value: Bytes) {
    value != [] && !(BOUND_PREFIX <= value)
  }

  function Upgrade(u: Suite, value: Bytes, context: string, nonce: Bytes): Option<Bytes> {
    if !NeedsUpgrade(value) then Some(value)
    else
      var plain := Open(u, value, context);
      if plain.None? then None else Seal(u, plain.value, context, nonce)
  }

  // ----- Properties

  lemma {:induction false} SealedParts(u: Suite, value: string, context: string, nonce: Bytes)
    requires ContextOk(u, context) && |nonce| == NONCE
    ensures var c := Seal(u, value, context, nonce).value;
            var e := u.encrypt(nonce, u.compress(u.encode(value)), Aad(u, context));
            BOUND_PREFIX <= c && Slice(c, 4, 4 + NONCE) == nonce && Tail(c, 4 + NONCE) == e
  {
    var e := u.encrypt(nonce, u.compress(u.encode(value)), Aad(u, context));
    var c := BOUND_PREFIX + nonce + e;
    assert c[4..] == nonce + e;
    assert c[4..4 + NONCE] == c[4..][..NONCE] == nonce;
    assert c[4 + NONCE..] == e;
  }

  /** Two contexts with the same associated data are the same context. */
  lemma AadInjective(u: Suite, a: string, b: string)
    requires Lawful(u) && Aad(u, a) == Aad(u, b)
    ensures a == b
  {
    assert Aad(u, a)[|u.encode(AAD_TAG)|..] == u.encode(a);
    assert Aad(u, b)[|u.encode(AAD_TAG)|..] == u.encode(b);
    assert u.decode(u.encode(a)) == Some(a) && u.decode(u.encode(b)) == Some(b);
  }

  /** A sealed value opens to its plaintext under the context it was sealed for, and under no other. */
  lemma SealOpensOnlyThere(u: Suite, value: string, context: string, nonce: Bytes, other: string)
    requires Lawful(u) && ContextOk(u, context) && |nonce| == NONCE
    ensures Open(u, Seal(u, value, context, nonce).value, other) == if other == context then Some(value) else None
  {
    SealedParts(u, value, context, nonce);
    var raw := u.compress(u.encode(value));
    if other == context {
      assert u.decrypt(nonce, u.encrypt(nonce, raw, Aad(u, context)), Aad(u, context)) == Some(raw);
    } else if ContextOk(u, other) {
      if Aad(u, other) == Aad(u, context) { AadInjective(u, other, context); }
      assert u.decrypt(nonce, u.encrypt(nonce, raw, Aad(u, context)), Aad(u, other)) == None;
    }
  }

  /**
   The new format byte by byte: sealing fails exactly for an empty or too long context, and otherwise leaves the
   prefix, the nonce, and what decrypts under the tagged context to the compressed text.
   */
  lemma SealedFormat(u: Suite, value: string, context: string, nonce: Bytes)
    requires Lawful(u) && |nonce| == 12
    ensures var r := Seal(u, value, context, nonce);
            && (r.Some? <==> context != "" && |u.encode(context)| <= 256)
            && (r.Some? ==>
                  && |r.value| >= 16 && r.value[..4] == [0x54, 0x4C, 0x32, 0x00] && r.value[4..16] == nonce
                  && u.decrypt(nonce, r.value[16..], u.encode("token-loom:v2:") + u.encode(context))
                     == Some(u.compress(u.encode(value))))
  {
    if ContextOk(u, context) {
      var raw := u.compress(u.encode(value));
      SealedParts(u, value, context, nonce);
      assert u.decrypt(nonce, u.encrypt(nonce, raw, Aad(u, context)), Aad(u, context)) == Some(raw);
    }
  }

  /** A value of the old format, as long as its nonce does not begin like the new format, still opens. */
  lemma LegacyOpens(u: Suite, value: string, context: string, nonce: Bytes)
    requires Lawful(u) && |nonce| == NONCE
    ensures var legacy := nonce + u.encrypt(nonce, u.compress(u.encode(value)), u.encode("token-admin:v1"));
            && (NeedsUpgrade(legacy) <==> !([0x54, 0x4C, 0x32, 0x00] <= nonce))
            && (NeedsUpgrade(legacy) ==> Open(u, legacy, context) == Some(value))
  {
    var e := u.encrypt(nonce, u.compress(u.encode(value)), u.encode(LEGACY_AAD));
    var c := nonce + e;
    assert Slice(c, 0, NONCE) == nonce && Tail(c, NONCE) == e;
    assert c[..4] == nonce[..4];
    var raw := u.compress(u.encode(value));
    assert u.decrypt(nonce, u.encrypt(nonce, raw, u.encode(LEGACY_AAD)), u.encode(LEGACY_AAD)) == Some(raw);
  }

  /** Upgrading succeeds exactly if there is nothing to do or the value opens; it keeps the plaintext. */
  lemma UpgradeKeeps(u: Suite, value: Bytes, context: string, nonce: Bytes)
    requires Lawful(u) && ContextOk(u, context) && |nonce| == NONCE
    ensures var r := Upgrade(u, value, context, nonce);
            && (r.Some? <==> !NeedsUpgrade(value) || Open(u, value, context).Some?)
            && (r.Some? ==> !NeedsUpgrade(r.value) && Open(u, r.value, context) == Open(u, value, context))
  {
    if NeedsUpgrade(value) && Open(u, value, context).Some? {
      SealOpensOnlyThere(u, Open(u, value, context).value, context, nonce, context);
      SealedParts(u, Open(u, value, context).value, context, nonce);
    }
  }

  // ----- Contexts

  datatype Field = Email | ClientId | RefreshToken

  function FieldName(f: Field): string {
    match f
    case Email => "email"
    case ClientId => "client_id"
    case RefreshToken => "refresh_token"
  }

  const HASH_LENGTH: nat := 64

  predicate ValidHash(h: string) {
    |h| == HASH_LENGTH && forall k :: 0 <= k < |h| ==> h[k] in "0123456789abcdef"
  }

  function AccountContext(h: string, f: Field): string {
    "account:" + h + ":" + FieldName(f)
  }

  lemma ThreeParts(a: string, h: string, b: string, n: string)
    ensures var c := a + h + b + n;
            c[|a|..|a| + |h|] == h && c[|a| + |h| + |b|..] == n
  {
  }

  lemma ContextParts(h: string, f: Field)
    requires |h| == HASH_LENGTH
    ensures var c := AccountContext(h, f);
            && |c| == 9 + HASH_LENGTH + |FieldName(f)|
            && c[8..8 + HASH_LENGTH] == h && c[9 + HASH_LENGTH..] == FieldName(f)
  {
    ThreeParts("account:", h, ":", FieldName(f));
  }

  lemma FieldNames(f: Field, f': Field)
    ensures FieldName(f) == FieldName(f') ==> f == f'
    ensures Ascii(FieldName(f)) && |FieldName(f)| <= 13
  {
    assert |"email"| == 5 && |"client_id"| == 9 && |"refresh_token"| == 13;
  }

  lemma AsciiConcat(a: string, b: string)
    requires Ascii(a) && Ascii(b)
    ensures Ascii(a + b)
  {
  }

  lemma ContextAscii(h: string, f: Field)
    requires ValidHash(h)
    ensures Ascii(AccountContext(h, f))
  {
    assert Ascii("0123456789abcdef");
    assert Ascii("account:") && Ascii(h) && Ascii(":");
    FieldNames(f, f);
    AsciiConcat("account:", h);
    AsciiConcat("account:" + h, ":");
    AsciiConcat("account:" + h + ":", FieldName(f));
  }

  /** Different accounts or fields have different contexts, and every such context is acceptable. */
  lemma ContextInjective(u: Suite, h: string, f: Field, h': string, f': Field)
    requires Lawful(u) && ValidHash(h) && ValidHash(h')
    ensures ContextOk(u, AccountContext(h, f))
    ensures AccountContext(h, f) == AccountContext(h', f') ==> h == h' && f == f'
  {
    ContextParts(h, f);
    ContextParts(h', f');
    FieldNames(f, f');
    ContextAscii(h, f);
    assert |u.encode(AccountContext(h, f))| == |AccountContext(h, f)|;
  }

  /** A ciphertext moved to another account or field does not open there. */
  lemma NotTransferable(u: Suite, value: string, h: string, f: Field, h': string, f': Field, nonce: Bytes)
    requires Lawful(u) && ValidHash(h) && ValidHash(h') && |nonce| == NONCE
    ensures ContextOk(u, AccountContext(h, f))
    ensures Open(u, Seal(u, value, AccountContext(h, f), nonce).value, AccountContext(h', f'))
         == if h == h' && f == f' then Some(value) else None
  {
    ContextInjective(u, h, f, h', f');
    SealOpensOnlyThere(u, value, AccountContext(h, f), nonce, AccountContext(h', f'));
  }
}
