/**
 * The record writer `addRecord`: the record is copied, its stale `signature`
 * and `hash` are removed and its `issuer` is set to the signer's public key;
 * that canonical object is serialised, the text is hashed and then signed,
 * and the object is posted with the new `hash` and `signature` attached.
 */
module Records {
  import opened Values
  import opened Templater
  import opened Resources
  import opened Crypto

  /** The canonical form that is serialised, hashed and signed. */
  function Canonical(record: Fields, issuer: string): (c: Fields)
    ensures "issuer" in c && c["issuer"] == Str(issuer)
    ensures "signature" !in c && "hash" !in c
    ensures forall k :: k in c ==> k == "issuer" || k in record
    ensures forall k :: k in record && k != "signature" && k != "hash" && k != "issuer" ==>
      k in c && c[k] == record[k]
  {
    (record - {"signature", "hash"})["issuer" := Str(issuer)]
  }

  /** The object posted: the canonical form with its hash and signature attached. */
  function SignedPayload(canonical: Fields, hash: string, signature: Value): Fields
  {
    canonical["hash" := Str(hash)]["signature" := signature]
  }

  /** The request that stores a signed record. */
  function RecordRequest(server: string, payload: Fields): Request
  {
    Request(PostVerb, RecordUri(server), map[], Some(Obj(payload)))
  }

  /** `addRecord(record, keypair)`; `stringify` is `JSON.stringify`. */
  method AddRecord(server: string, record: Fields, keypair: Keypair, crypto: CryptoUtils,
                   stringify: Fields -> string, http: Http) returns (o: Run<Value>)
    ensures var canonical := Canonical(record, crypto.encodeBase58(keypair.signPk));
      var text := stringify(canonical);
      && |o.calls| >= 1 && o.calls[0] == HashCall(text)
      // a failed hash stops before signing
      && (crypto.hashSha256(text).Failure? ==>
            o == Run(Failure(crypto.hashSha256(text).error), [HashCall(text)]))
      // the same text is signed; a failed signature stops before posting
      && (crypto.hashSha256(text).Success? ==>
            |o.calls| >= 2 && o.calls[1] == SignCall(Str(text))
            && (crypto.sign(Str(text), keypair).Failure? ==>
                  o == Run(Failure(crypto.sign(Str(text), keypair).error), [HashCall(text), SignCall(Str(text))])))
      // both succeeded: the canonical form is posted with the hash and signature of its text
      && (crypto.hashSha256(text).Success? && crypto.sign(Str(text), keypair).Success? ==>
            var payload := SignedPayload(canonical, crypto.encodeBase58(crypto.hashSha256(text).value),
                                         crypto.sign(Str(text), keypair).value);
            && o.calls == [HashCall(text), SignCall(Str(text)), HttpCall(RecordRequest(server, payload))]
            && o.result == Settle(http(RecordRequest(server, payload))))
  {
    var obj := record;
    obj := obj - {"signature"};
    obj := obj - {"hash"};
    obj := obj["issuer" := Str(crypto.encodeBase58(keypair.signPk))];
    assert obj == Canonical(record, crypto.encodeBase58(keypair.signPk));
    var str := stringify(obj);
    var calls := [HashCall(str)];
    var hashArray := crypto.hashSha256(str);
    if hashArray.Failure? {
      return Run(Failure(hashArray.error), calls);
    }
    calls := calls + [SignCall(Str(str))];
    var signature := crypto.sign(Str(str), keypair);
    if signature.Failure? {
      return Run(Failure(signature.error), calls);
    }
    obj := obj["hash" := Str(crypto.encodeBase58(hashArray.value))];
    obj := obj["signature" := signature.value];
    var posted := PostResource(RecordUri(server), Obj(obj), Absent, http);
    o := Run(posted.result, calls + posted.calls);
  }

  /** Stale `hash` and `signature` fields of the input never reach the signed text. */
  lemma StaleProofIgnored(record: Fields, issuer: string, hash: Value, signature: Value)
    ensures Canonical(record["hash" := hash], issuer) == Canonical(record, issuer)
    ensures Canonical(record["signature" := signature], issuer) == Canonical(record, issuer)
  {
  }

  /**
   * Removing the attached hash and signature from the posted object gives back
   * exactly the object that was serialised.
   */
  lemma PayloadStripsToCanonical(record: Fields, issuer: string, hash: string, signature: Value)
    ensures SignedPayload(Canonical(record, issuer), hash, signature) - {"hash", "signature"}
         == Canonical(record, issuer)
  {
  }

  /** Re-adding a posted record by the same issuer signs exactly the same text. */
  lemma ResignStable(record: Fields, issuer: string, hash: string, signature: Value)
    ensures Canonical(SignedPayload(Canonical(record, issuer), hash, signature), issuer)
         == Canonical(record, issuer)
  {
  }

  /** The posted object holds every field of the record except the replaced ones, unchanged. */
  lemma PayloadKeepsFields(record: Fields, issuer: string, hash: string, signature: Value)
    ensures var p := SignedPayload(Canonical(record, issuer), hash, signature);
      && p.Keys == (record.Keys - {"signature", "hash", "issuer"}) + {"issuer", "hash", "signature"}
      && p["issuer"] == Str(issuer) && p["hash"] == Str(hash) && p["signature"] == signature
      && forall k :: k in record && k !in {"signature", "hash", "issuer"} ==> p[k] == record[k]
  {
  }
}
