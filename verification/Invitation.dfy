/** DID documents and out-of-band invitations (didcomm/did/handler.go, didcomm/invitation/handler.go,
    getPeerInfo of prober/agent.go). Both put base64 through fixed buffers and trim the rest away. */
module Invitation {
  import opened Common
  import B = Base64

  /** A service as the prober keeps it, and as a DID document carries it. */
  datatype Service = Service(id: string, kind: string, endpoint: string, pubKey: Bytes)

  datatype DocService = DocService(id: string, kind: string, recipientKeys: seq<Bytes>, endpoint: string)

  datatype InvMessage = InvMessage(id: string, from: string, name: string, services: seq<DocService>)

  /** JSON of an invitation: an inverse pair whose text, being a JSON object, has no NUL at its ends. */
  datatype InvJson = InvJson(enc: InvMessage -> Bytes, dec: Bytes -> Option<InvMessage>) {
    ghost predicate Valid() {
      && (forall i :: dec(enc(i)) == Some(i))
      && (forall i :: NoNulAtEnds(enc(i)))
    }
  }

  const KEY_BUFFER := 64

  /** Keys whose base64 fits the 64-byte buffer. */
  predicate Fits(svc: Service) {
    |svc.pubKey| <= 48
  }

  function DocOf(svc: Service): DocService {
    DocService(svc.id, svc.kind, [B.Encode(B.Std, svc.pubKey)], svc.endpoint)
  }

  function DocsOf(svcs: seq<Service>): (r: seq<DocService>)
    ensures |r| == |svcs|
    ensures forall i :: 0 <= i < |svcs| ==> r[i] == DocOf(svcs[i])
  {
    if |svcs| == 0 then [] else DocsOf(svcs[..|svcs| - 1]) + [DocOf(svcs[|svcs| - 1])]
  }

  /** A document entry names the service's id, type and endpoint, and its key as the only recipient key. */
  ghost predicate Describes(d: DocService, svc: Service) {
    && d.id == svc.id && d.kind == svc.kind && d.endpoint == svc.endpoint
    && |d.recipientKeys| == 1 && B.Decode(B.Std, d.recipientKeys[0]) == Some(svc.pubKey)
  }

  lemma {:induction false} DocDescribes(svcs: seq<Service>)
    ensures forall i :: 0 <= i < |svcs| ==> Describes(DocsOf(svcs)[i], svcs[i])
  {
    forall i | 0 <= i < |svcs| ensures Describes(DocsOf(svcs)[i], svcs[i]) {
      B.RoundTrip(B.Std, svcs[i].pubKey);
    }
  }

  /** None is the index panic of the encoder, which happens exactly when some key is too long. */
  method CreateDIDDoc(svcs: seq<Service>) returns (doc: Option<seq<DocService>>)
    ensures doc.Some? <==> forall s :: s in svcs ==> Fits(s)
    ensures doc.Some? ==> doc.value == DocsOf(svcs)
    ensures doc.Some? ==> |doc.value| == |svcs| && forall i :: 0 <= i < |svcs| ==> Describes(doc.value[i], svcs[i])
  {
    var msgSvcs := [];
    for i := 0 to |svcs|
      invariant msgSvcs == DocsOf(svcs[..i])
      invariant forall k :: 0 <= k < i ==> Fits(svcs[k])
    {
      var encodedKey := B.EncodeTrimmed(B.Std, KEY_BUFFER, svcs[i].pubKey);
      if encodedKey.None? {
        assert svcs[i] in svcs;
        return None;
      }
      assert svcs[..i + 1][..i] == svcs[..i];
      msgSvcs := msgSvcs + [DocService(svcs[i].id, svcs[i].kind, [encodedKey.value], svcs[i].endpoint)];
    }
    assert svcs[..|svcs|] == svcs;
    DocDescribes(svcs);
    return Some(msgSvcs);
  }

  /** The first key that decodes. */
  function FirstKey(keys: seq<Bytes>): (r: Option<Bytes>)
    ensures r.None? <==> forall i :: 0 <= i < |keys| ==> B.Decode(B.Std, keys[i]).None?
    ensures forall i :: 0 <= i < |keys| && B.Decode(B.Std, keys[i]).Some?
                        && (forall j :: 0 <= j < i ==> B.Decode(B.Std, keys[j]).None?)
              ==> r == B.Decode(B.Std, keys[i])
  {
    if |keys| == 0 then None
    else if B.Decode(B.Std, keys[0]).Some? then B.Decode(B.Std, keys[0])
    else FirstKey(keys[1..])
  }

  /** The usable services of a document: those with a decodable key, with the first such key. */
  function ServicesOf(doc: seq<DocService>): seq<Service> {
    if |doc| == 0 then []
    else
      var s := doc[|doc| - 1];
      ServicesOf(doc[..|doc| - 1]) +
      match FirstKey(s.recipientKeys)
      case Some(k) => [Service(s.id, s.kind, s.endpoint, k)]
      case None => []
  }

  /** The decoding half of getPeerInfo. */
  method GetPeerInfo(doc: seq<DocService>) returns (svcs: Option<seq<Service>>)
    ensures svcs == if |doc| == 0 then None else Some(ServicesOf(doc))
  {
    if |doc| == 0 {
      return None;
    }
    var found := [];
    for i := 0 to |doc|
      invariant found == ServicesOf(doc[..i])
    {
      var keys := doc[i].recipientKeys;
      assert doc[..i + 1][..i] == doc[..i];
      var j := 0;
      while j < |keys| && B.Decode(B.Std, keys[j]).None?
        invariant 0 <= j <= |keys|
        invariant FirstKey(keys) == FirstKey(keys[j..])
      {
        j := j + 1;
      }
      if j < |keys| {
        found := found + [Service(doc[i].id, doc[i].kind, doc[i].endpoint, B.Decode(B.Std, keys[j]).value)];
      }
    }
    assert doc[..|doc|] == doc;
    return Some(found);
  }

  lemma {:induction false} OneServiceBack(doc: seq<DocService>, svc: Service)
    ensures ServicesOf(doc + [DocOf(svc)]) == ServicesOf(doc) + [svc]
  {
    B.RoundTrip(B.Std, svc.pubKey);
    assert FirstKey([B.Encode(B.Std, svc.pubKey)]) == Some(svc.pubKey);
    assert (doc + [DocOf(svc)])[..|doc|] == doc;
  }

  lemma {:induction false} DocsOfMore(svcs: seq<Service>, svc: Service)
    ensures DocsOf(svcs + [svc]) == DocsOf(svcs) + [DocOf(svc)]
  {
    assert (svcs + [svc])[..|svcs|] == svcs;
  }

  /** A peer recovers exactly the services a document was made from. */
  lemma {:induction false} DocumentRoundTrip(svcs: seq<Service>)
    ensures ServicesOf(DocsOf(svcs)) == svcs
    decreases |svcs|
  {
    if |svcs| > 0 {
      var init, last := svcs[..|svcs| - 1], svcs[|svcs| - 1];
      assert svcs == init + [last];
      DocumentRoundTrip(init);
      DocsOfMore(init, last);
      OneServiceBack(DocsOf(init), last);
    }
  }

  // ---- invitations ----

  /** The value of the oob query parameter. */
  function OobValue(j: InvJson, inv: InvMessage): Bytes {
    B.Encode(B.Url, j.enc(inv))
  }

  datatype Parsed = Parsed(inv: InvMessage, endpoint: string, pubKey: Bytes)

  /** The first service with a recipient key decides; if its first key does not decode, parsing fails. */
  function FirstService(inv: InvMessage, svcs: seq<DocService>): Option<Parsed> {
    if |svcs| == 0 then None
    else if |svcs[0].recipientKeys| == 0 then FirstService(inv, svcs[1..])
    else match B.Decode(B.Std, svcs[0].recipientKeys[0])
      case None => None
      case Some(k) => Some(Parsed(inv, svcs[0].endpoint, k))
  }

  /** Services without recipient keys are passed over; the first with some decides alone. */
  lemma {:induction false} FirstServiceDecides(inv: InvMessage, svcs: seq<DocService>, i: nat)
    requires i <= |svcs| && forall j :: 0 <= j < i ==> svcs[j].recipientKeys == []
    requires i < |svcs| ==> svcs[i].recipientKeys != []
    ensures FirstService(inv, svcs) ==
            if i == |svcs| || B.Decode(B.Std, svcs[i].recipientKeys[0]).None? then None
            else Some(Parsed(inv, svcs[i].endpoint, B.Decode(B.Std, svcs[i].recipientKeys[0]).value))
  {
    if i > 0 {
      FirstServiceDecides(inv, svcs[1..], i - 1);
    }
  }

  function Parse(j: InvJson, encInv: Bytes): Option<Parsed> {
    match B.Decode(B.Url, encInv)
    case None => None
    case Some(text) =>
      match j.dec(Trim(text))
      case None => None
      case Some(inv) => FirstService(inv, inv.services)
  }

  method ParseInv(j: InvJson, encInv: Bytes) returns (r: Option<Parsed>)
    ensures r == Parse(j, encInv)
  {
    var bytInv := new byte[|encInv|](i => 0);
    var decoded := B.Decode(B.Url, encInv);
    if decoded.None? {
      return None;
    }
    B.DecodedFits(B.Url, encInv);
    forall i | 0 <= i < |decoded.value| {
      bytInv[i] := decoded.value[i];
    }
    assert bytInv[..] == decoded.value + Zeros(|encInv| - |decoded.value|);
    TrimDropsPadding(decoded.value, |encInv| - |decoded.value|);
    var inv := j.dec(Trim(bytInv[..]));
    if inv.None? {
      return None;
    }
    var svcs := inv.value.services;
    for i := 0 to |svcs|
      invariant FirstService(inv.value, svcs) == FirstService(inv.value, svcs[i..])
    {
      if |svcs[i].recipientKeys| == 0 {
        continue;
      }
      var pubKey := B.Decode(B.Std, svcs[i].recipientKeys[0]);
      if pubKey.None? {
        return None;
      }
      return Some(Parsed(inv.value, svcs[i].endpoint, pubKey.value));
    }
    return None;
  }

  lemma TrimIdentity(s: Bytes)
    requires NoNulAtEnds(s)
    ensures Trim(s) == s
  {
    TrimRemovesUnusedBuffer(s, 0);
    assert s + Zeros(0) == s;
  }

  /** Parsing the oob value of an invitation over a one-service document gives back the invitation,
      the service endpoint and the key, for every label, endpoint and key. */
  lemma InvitationRoundTrip(j: InvJson, id: string, from: string, name: string, svc: Service)
    requires j.Valid()
    ensures var inv := InvMessage(id, from, name, DocsOf([svc]));
            && Parse(j, OobValue(j, inv)) == Some(Parsed(inv, svc.endpoint, svc.pubKey))
            && B.Decode(B.Url, OobValue(j, inv)) == Some(j.enc(inv))
  {
    var inv := InvMessage(id, from, name, DocsOf([svc]));
    B.RoundTrip(B.Url, j.enc(inv));
    TrimIdentity(j.enc(inv));
    assert [svc][..0] == [];
    assert DocsOf([svc]) == [DocOf(svc)];
    B.RoundTrip(B.Std, svc.pubKey);
  }
}
