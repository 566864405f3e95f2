/** The authenticated envelope of DIDComm messages (crypto/packer.go, crypto/keys.go). */
module Packer {
  import opened Common
  import opened Cipher
  import B = Base64

  datatype Recipient = Recipient(encryptedKey: Bytes, kid: Bytes, iv: Bytes, sender: Bytes)

  datatype Payload = Payload(enc: string, typ: string, alg: string, recipients: seq<Recipient>)

  datatype AuthCryptMsg = AuthCryptMsg(protected: Bytes, iv: Bytes, ciphertext: Bytes, tag: Bytes)

  /** The library calls. Only what the libraries promise about opening what was sealed is assumed. */
  datatype Prims = Prims(
    pubOf: Bytes -> Bytes,
    box: (Bytes, Bytes, Bytes, Bytes) -> Bytes,
    boxOpen: (Bytes, Bytes, Bytes, Bytes) -> Bytes,
    seal: (Bytes, Bytes, Bytes) -> Bytes,
    sealOpen: (Bytes, Bytes, Bytes) -> Bytes,
    aead: (Bytes, Bytes, Bytes, Bytes) -> (Bytes, Bytes),
    aeadOpen: (Bytes, Bytes, Bytes, Bytes, Bytes) -> Option<Bytes>,
    payloadJson: Payload -> Bytes,
    payloadOf: Bytes -> Option<Payload>,
    msgJson: AuthCryptMsg -> Bytes,
    msgOf: Bytes -> Option<AuthCryptMsg>,
    base58: Bytes -> Bytes,
    base58Decode: Bytes -> Bytes)
  {
    ghost predicate Valid() {
      && (forall m, n, s, r :: |n| == NONCE_BYTES ==> boxOpen(box(m, n, pubOf(r), s), n, pubOf(s), r) == m)
      && (forall m, r, rnd :: sealOpen(seal(m, pubOf(r), rnd), pubOf(r), r) == m)
      && (forall m, ad, iv, key :: |iv| == IV_BYTES && |key| == KEY_BYTES ==>
            aeadOpen(aead(m, ad, iv, key).0, aead(m, ad, iv, key).1, ad, iv, key) == Some(m))
      && (forall p :: payloadOf(payloadJson(p)) == Some(p))
      && (forall m :: msgOf(msgJson(m)) == Some(m))
      && (forall k :: base58Decode(base58(k)) == k)
    }

    /** The sealed text opens under no other header, nonce or key. */
    ghost predicate Authentic() {
      forall m, ad, iv, key, ad', iv', key' ::
        |iv| == IV_BYTES == |iv'| && |key| == KEY_BYTES == |key'| && (ad, iv, key) != (ad', iv', key') ==>
          aeadOpen(aead(m, ad, iv, key).0, aead(m, ad, iv, key).1, ad', iv', key') == None
    }
  }

  /** The random choices of one Pack call: two decimal numbers as text, a content key, and the
      ephemeral randomness of the sealed box. No length is assumed of any of them. */
  datatype Randomness = Randomness(cekIv: Bytes, cek: Bytes, iv: Bytes, ephemeral: Bytes)

  function Header(p: Prims, rnd: Randomness, recPubKey: Bytes, sendPubKey: Bytes, sendPrvKey: Bytes): Payload {
    Payload("xchacha20poly1305_ietf", "JWM/1.0", "Authcrypt",
            [Recipient(B.Encode(B.Std, p.box(rnd.cek, FitNonce(rnd.cekIv), recPubKey, sendPrvKey)),
                       p.base58(recPubKey),
                       B.Encode(B.Std, rnd.cekIv),
                       B.Encode(B.Std, p.seal(sendPubKey, recPubKey, rnd.ephemeral)))])
  }

  function Pack(p: Prims, rnd: Randomness, input: Bytes, recPubKey: Bytes, sendPubKey: Bytes,
                sendPrvKey: Bytes): AuthCryptMsg {
    var encPayload := p.payloadJson(Header(p, rnd, recPubKey, sendPubKey, sendPrvKey));
    var (cipher, mac) := p.aead(input, encPayload, Fixed(IV_BYTES, rnd.iv), Fixed(KEY_BYTES, rnd.cek));
    AuthCryptMsg(B.Encode(B.Std, encPayload), B.Encode(B.Std, rnd.iv), B.Encode(B.Std, cipher), B.Encode(B.Std, mac))
  }

  /** The content key that a key pair gets out of an envelope's header. */
  function ContentKey(p: Prims, rec: Recipient, pub: Bytes, prv: Bytes): Option<Bytes> {
    var sendKey, cekIv := B.Decode(B.Std, rec.sender), B.Decode(B.Std, rec.iv);
    var encCek := B.Decode(B.Std, rec.encryptedKey);
    if sendKey.None? || encCek.None? || cekIv.None? then None
    else Some(p.boxOpen(encCek.value, FitNonce(cekIv.value), p.sealOpen(sendKey.value, pub, prv), prv))
  }

  /** A base64 or JSON error, an empty recipient list, or a failed authentication gives None. */
  function Unpack(p: Prims, data: Bytes, recPubKey: Bytes, recPrvKey: Bytes): Option<Bytes> {
    var msg := p.msgOf(data);
    if msg.None? then None else
    var decodedVal := B.Decode(B.Std, msg.value.protected);
    if decodedVal.None? then None else
    var payload := p.payloadOf(decodedVal.value);
    if payload.None? || |payload.value.recipients| == 0 then None else
    var cek := ContentKey(p, payload.value.recipients[0], recPubKey, recPrvKey);
    if cek.None? then None else
    var cipher, mac := B.Decode(B.Std, msg.value.ciphertext), B.Decode(B.Std, msg.value.tag);
    var iv := B.Decode(B.Std, msg.value.iv);
    if cipher.None? || mac.None? || iv.None? then None else
    p.aeadOpen(cipher.value, mac.value, decodedVal.value, Fixed(IV_BYTES, iv.value), Fixed(KEY_BYTES, cek.value))
  }

  /** The recipient key named by an envelope, by which the receiver finds the connection. */
  function Kid(p: Prims, data: Bytes): Option<Bytes> {
    var msg := p.msgOf(data);
    if msg.None? then None else
    var decodedVal := B.Decode(B.Std, msg.value.protected);
    if decodedVal.None? then None else
    var payload := p.payloadOf(decodedVal.value);
    if payload.None? || |payload.value.recipients| == 0 then None else
    Some(p.base58Decode(payload.value.recipients[0].kid))
  }

  /** What travels: header, content key, nonces and sender key as they were chosen, each under its own coding,
      and the text sealed under the whole header and the first bytes of nonce and content key. */
  lemma EnvelopeCarries(p: Prims, rnd: Randomness, input: Bytes, recPubKey: Bytes, sendPubKey: Bytes, sendPrvKey: Bytes)
    requires p.Valid()
    ensures var msg := Pack(p, rnd, input, recPubKey, sendPubKey, sendPrvKey);
            var ad := p.payloadJson(Header(p, rnd, recPubKey, sendPubKey, sendPrvKey));
            var sealed := p.aead(input, ad, Fixed(IV_BYTES, rnd.iv), Fixed(KEY_BYTES, rnd.cek));
            && B.Decode(B.Std, msg.protected) == Some(ad) && B.Decode(B.Std, msg.iv) == Some(rnd.iv)
            && B.Decode(B.Std, msg.ciphertext) == Some(sealed.0) && B.Decode(B.Std, msg.tag) == Some(sealed.1)
    ensures var rec := Header(p, rnd, recPubKey, sendPubKey, sendPrvKey).recipients[0];
            && B.Decode(B.Std, rec.encryptedKey) == Some(p.box(rnd.cek, FitNonce(rnd.cekIv), recPubKey, sendPrvKey))
            && B.Decode(B.Std, rec.iv) == Some(rnd.cekIv) && p.base58Decode(rec.kid) == recPubKey
            && B.Decode(B.Std, rec.sender) == Some(p.seal(sendPubKey, recPubKey, rnd.ephemeral))
  {
    var ad := p.payloadJson(Header(p, rnd, recPubKey, sendPubKey, sendPrvKey));
    var sealed := p.aead(input, ad, Fixed(IV_BYTES, rnd.iv), Fixed(KEY_BYTES, rnd.cek));
    B.RoundTrip(B.Std, ad);
    B.RoundTrip(B.Std, rnd.iv);
    B.RoundTrip(B.Std, sealed.0);
    B.RoundTrip(B.Std, sealed.1);
    B.RoundTrip(B.Std, p.box(rnd.cek, FitNonce(rnd.cekIv), recPubKey, sendPrvKey));
    B.RoundTrip(B.Std, rnd.cekIv);
    B.RoundTrip(B.Std, p.seal(sendPubKey, recPubKey, rnd.ephemeral));
  }

  /** Unpack undoes Pack for every message, every key pair and every random choice, and the envelope
      names the recipient's key. */
  lemma UnpackUndoesPack(p: Prims, rnd: Randomness, input: Bytes, sendPrvKey: Bytes, recPrvKey: Bytes)
    requires p.Valid()
    ensures var data := p.msgJson(Pack(p, rnd, input, p.pubOf(recPrvKey), p.pubOf(sendPrvKey), sendPrvKey));
            Unpack(p, data, p.pubOf(recPrvKey), recPrvKey) == Some(input) && Kid(p, data) == Some(p.pubOf(recPrvKey))
  {
    var recPub, sendPub := p.pubOf(recPrvKey), p.pubOf(sendPrvKey);
    var header := Header(p, rnd, recPub, sendPub, sendPrvKey);
    EnvelopeCarries(p, rnd, input, recPub, sendPub, sendPrvKey);
    assert p.payloadOf(p.payloadJson(header)) == Some(header);
    FindsContentKey(p, rnd, sendPrvKey, recPrvKey);
    TextOpens(p, input, p.payloadJson(header), Fixed(IV_BYTES, rnd.iv), Fixed(KEY_BYTES, rnd.cek));
  }

  lemma TextOpens(p: Prims, m: Bytes, ad: Bytes, iv: Bytes, key: Bytes)
    requires p.Valid() && |iv| == IV_BYTES && |key| == KEY_BYTES
    ensures p.aeadOpen(p.aead(m, ad, iv, key).0, p.aead(m, ad, iv, key).1, ad, iv, key) == Some(m)
  {}

  /** The recipient finds the content key the sender chose. */
  lemma FindsContentKey(p: Prims, rnd: Randomness, sendPrvKey: Bytes, recPrvKey: Bytes)
    requires p.Valid()
    ensures var rec := Header(p, rnd, p.pubOf(recPrvKey), p.pubOf(sendPrvKey), sendPrvKey).recipients[0];
            ContentKey(p, rec, p.pubOf(recPrvKey), recPrvKey) == Some(rnd.cek)
  {
    var recPub, sendPub := p.pubOf(recPrvKey), p.pubOf(sendPrvKey);
    EnvelopeCarries(p, rnd, [], recPub, sendPub, sendPrvKey);
    assert p.sealOpen(p.seal(sendPub, recPub, rnd.ephemeral), recPub, recPrvKey) == sendPub;
    assert p.boxOpen(p.box(rnd.cek, FitNonce(rnd.cekIv), recPub, sendPrvKey), FitNonce(rnd.cekIv), sendPub, recPrvKey)
        == rnd.cek;
  }

  /** Exactly who can open an envelope, and in which form: with any key pair, nonce and header around the same
      recipient, the text comes back if the header is the sender's, the nonce starts like the sender's and the
      key pair finds a content key that starts like the sender's; otherwise nothing does. */
  lemma {:induction false} OpensExactly(p: Prims, rnd: Randomness, input: Bytes, recPubKey: Bytes, sendPubKey: Bytes,
                                        sendPrvKey: Bytes, header: Payload, iv: Bytes, pub: Bytes, prv: Bytes)
    requires p.Valid() && p.Authentic()
    requires header.recipients == Header(p, rnd, recPubKey, sendPubKey, sendPrvKey).recipients
    ensures var sent := Header(p, rnd, recPubKey, sendPubKey, sendPrvKey);
            var msg := Pack(p, rnd, input, recPubKey, sendPubKey, sendPrvKey)
                       .(protected := B.Encode(B.Std, p.payloadJson(header)), iv := B.Encode(B.Std, iv));
            var cek := ContentKey(p, sent.recipients[0], pub, prv);
            && cek.Some?
            && Unpack(p, p.msgJson(msg), pub, prv) ==
               if header == sent && SameStart(IV_BYTES, iv, rnd.iv) && SameStart(KEY_BYTES, cek.value, rnd.cek)
               then Some(input) else None
  {
    var sent := Header(p, rnd, recPubKey, sendPubKey, sendPrvKey);
    EnvelopeCarries(p, rnd, input, recPubKey, sendPubKey, sendPrvKey);
    B.RoundTrip(B.Std, p.payloadJson(header));
    B.RoundTrip(B.Std, iv);
    var cek := ContentKey(p, sent.recipients[0], pub, prv);
    FixedTellsApart(IV_BYTES, iv, rnd.iv);
    FixedTellsApart(KEY_BYTES, cek.value, rnd.cek);
    assert p.payloadOf(p.payloadJson(header)) == Some(header);
    SealedOpens(p, input, p.payloadJson(sent), Fixed(IV_BYTES, rnd.iv), Fixed(KEY_BYTES, rnd.cek),
                p.payloadJson(header), Fixed(IV_BYTES, iv), Fixed(KEY_BYTES, cek.value));
  }

  lemma SealedOpens(p: Prims, m: Bytes, ad: Bytes, iv: Bytes, key: Bytes, ad': Bytes, iv': Bytes, key': Bytes)
    requires p.Valid() && p.Authentic()
    requires |iv| == IV_BYTES == |iv'| && |key| == KEY_BYTES == |key'|
    ensures p.aeadOpen(p.aead(m, ad, iv, key).0, p.aead(m, ad, iv, key).1, ad', iv', key') ==
            if ad == ad' && iv == iv' && key == key' then Some(m) else None
  {
    assert (ad, iv, key) != (ad', iv', key') ==> ad != ad' || iv != iv' || key != key';
    assert ad != ad' || iv != iv' || key != key' ==> (ad, iv, key) != (ad', iv', key');
  }

  // ---- key store ----

  datatype KeyPair = KeyPair(pub: Bytes, prv: Bytes)

  type Keys = map<string, KeyPair>

  ghost predicate WellMade(p: Prims, keys: Keys) {
    forall n :: n in keys ==> keys[n].pub == p.pubOf(keys[n].prv)
  }

  ghost predicate DistinctKeys(keys: Keys) {
    forall n, m :: n in keys && m in keys && keys[n].pub == keys[m].pub ==> n == m
  }

  class KeyManager {
    var keyStore: Keys
    var inv: Option<KeyPair>

    constructor ()
      ensures keyStore == map[] && inv == None
    {
      keyStore, inv := map[], None;
    }

    /** The library's fresh key pair is an argument. */
    method GenerateKeys(peer: string, pair: KeyPair)
      modifies this`keyStore
      ensures keyStore == old(keyStore)[peer := pair]
    {
      keyStore := keyStore[peer := pair];
    }

    /** One pair serves all invitations: later calls keep the first. */
    method GenerateInvKeys(pair: KeyPair)
      modifies this`inv
      ensures inv == if old(inv).Some? then old(inv) else Some(pair)
    {
      if inv.None? {
        inv := Some(pair);
      }
    }

    /** Reverse lookup by scanning the store in whatever order. An empty label counts as not found. */
    method Peer(pubKey: Bytes) returns (name: Option<string>)
      ensures name.Some? ==> name.value in keyStore && keyStore[name.value].pub == pubKey
      ensures DistinctKeys(keyStore) && "" !in keyStore ==> name == PeerOf(keyStore, pubKey)
    {
      var found := "";
      var todo := keyStore.Keys;
      while todo != {}
        invariant todo <= keyStore.Keys
        invariant found == ""
        invariant forall n :: n in keyStore && n !in todo ==> keyStore[n].pub != pubKey
        decreases |todo|
      {
        var n :| n in todo;
        if keyStore[n].pub == pubKey {
          found := n;
          break;
        }
        todo := todo - {n};
      }
      if found != "" {
        return Some(found);
      }
      return None;
    }
  }

  ghost function PeerOf(keys: Keys, pubKey: Bytes): Option<string> {
    if exists n :: n in keys && keys[n].pub == pubKey
    then var n :| n in keys && keys[n].pub == pubKey; Some(n)
    else None
  }

  /** prober.ReadMessage: who sent it and what it says. */
  ghost function ReadMessage(p: Prims, keys: Keys, data: Bytes): Option<(string, Bytes)> {
    var kid := Kid(p, data);
    if kid.None? then None else
    var name := PeerOf(keys, kid.value);
    if name.None? then None else
    var text := Unpack(p, data, keys[name.value].pub, keys[name.value].prv);
    if text.None? then None else Some((name.value, text.value))
  }

  /** An envelope packed with our key for one connection is read as coming from that peer; an envelope
      packed for a key we do not hold is not read at all. */
  lemma ReadsOwnEnvelopes(p: Prims, rnd: Randomness, keys: Keys, text: Bytes, sender: KeyPair, recPrvKey: Bytes,
                          name: string)
    requires p.Valid() && WellMade(p, keys) && DistinctKeys(keys) && sender.pub == p.pubOf(sender.prv)
    ensures var data := p.msgJson(Pack(p, rnd, text, p.pubOf(recPrvKey), sender.pub, sender.prv));
            && (name in keys && keys[name].prv == recPrvKey ==> ReadMessage(p, keys, data) == Some((name, text)))
            && ((forall n :: n in keys ==> keys[n].pub != p.pubOf(recPrvKey)) ==> ReadMessage(p, keys, data) == None)
  {
    UnpackUndoesPack(p, rnd, text, sender.prv, recPrvKey);
  }
}
