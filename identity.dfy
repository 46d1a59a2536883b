/** The identity provider: the DID of the connected user, its resolved DID
    document and the `ready` flag, which says that a key check found the
    decryption key on a held document, or that an `addKey` call succeeded.

    Keys are represented by their base58 text, so `key.toBase58()` is the
    key itself and two keys are equal exactly when their encodings are.
    The external calls (DID resolution, DID creation, adding a key to a
    DID) are not modelled: each transition receives the outcome its call
    delivered. */
module Identity {
  import opened Common

  /** A public key, as its base58 encoding. */
  type Key = string

  /** The connected wallet: only its signing public key is read here. */
  datatype Wallet = Wallet(publicKey: Key)

  datatype VerificationMethod = VerificationMethod(publicKeyBase58: Key)

  /** The fields of a DID document this provider reads. The list of
      verification methods is optional in the document. */
  datatype DidDocument = DidDocument(id: string, verificationMethod: Option<seq<VerificationMethod>>)

  /** `docHasKey`: some verification method of the document carries `key`. */
  predicate DocHasKey(doc: DidDocument, key: Key)
    ensures DocHasKey(doc, key) <==>
      doc.verificationMethod.Some? &&
      exists i :: 0 <= i < |doc.verificationMethod.value| &&
        doc.verificationMethod.value[i].publicKeyBase58 == key
    ensures doc.verificationMethod.None? ==> !DocHasKey(doc, key)
  {
    doc.verificationMethod.Some? &&
    Find(doc.verificationMethod.value, (m: VerificationMethod) => m.publicKeyBase58 == key).Some?
  }

  /** The provider's state cells. `did` is persisted; `document` and `ready`
      live in memory. */
  datatype IdentityState = IdentityState(did: Option<string>, document: Option<DidDocument>, ready: bool)

  /** The state on mount: the stored DID, no document, not ready. */
  function Initial(storedDid: Option<string>): (s: IdentityState)
  {
    IdentityState(storedDid, None, false)
  }

  /** The key check passes: a document is loaded and lists the decryption key. */
  predicate DecryptionKeyListed(s: IdentityState, decryptionKey: Option<Key>)
  {
    s.document.Some? && decryptionKey.Some? && DocHasKey(s.document.value, decryptionKey.value)
  }

  /** `createIdentity`: on success the created document's id becomes the DID. */
  function Created(s: IdentityState, created: Result<DidDocument>): (t: IdentityState)
    ensures t.document == s.document && t.ready == s.ready
    ensures created.Success? ==> t.did == Some(created.value.id)
    ensures created.Failure? ==> t.did == s.did
  {
    match created
    case Success(doc) => s.(did := Some(doc.id))
    case Failure(_) => s
  }

  /** `addKey`: `ready` becomes true once adding the decryption key to the
      DID succeeded. Without a decryption key the call is never made (reading
      its public key throws first). */
  function KeyAdded(s: IdentityState, decryptionKey: Option<Key>, added: Outcome): (t: IdentityState)
    ensures t.did == s.did && t.document == s.document
    ensures t.ready <==> s.ready || (decryptionKey.Some? && added.Pass?)
  {
    if decryptionKey.Some? && added.Pass? then s.(ready := true) else s
  }

  /** The effect on a DID change: when the DID is set, a successful
      resolution replaces the document wholesale; a failed one is only
      logged. */
  function Resolved(s: IdentityState, resolved: Result<DidDocument>): (t: IdentityState)
    ensures t.did == s.did && t.ready == s.ready
    ensures !Truthy(s.did) ==> t.document == s.document
    ensures Truthy(s.did) && resolved.Success? ==> t.document == Some(resolved.value)
    ensures resolved.Failure? ==> t.document == s.document
  {
    if Truthy(s.did) then
      match resolved
      case Success(doc) => s.(document := Some(doc))
      case Failure(_) => s
    else s
  }

  /** The effect that derives a default DID from the wallet key when none is
      set. `found` is the outcome of deriving the identifier and resolving
      it. A failure — "No DID found" included, since its creation prompt is
      disabled — leaves the DID unset. */
  function DefaultDidLookedUp(s: IdentityState, wallet: Option<Wallet>, connected: bool,
                              found: Result<DidDocument>): (t: IdentityState)
    ensures t.document == s.document && t.ready == s.ready
    ensures t.did != s.did <==>
      wallet.Some? && connected && !Truthy(s.did) && found.Success? && s.did != Some(found.value.id)
    ensures t.did != s.did ==> t.did == Some(found.value.id)
  {
    if wallet.Some? && connected && !Truthy(s.did) then
      match found
      case Success(doc) => s.(did := Some(doc.id))
      case Failure(_) => s
    else s
  }

  /** The effect that checks the document for the decryption key. Only the
      branch where the document lists the key writes anything; the
      sub-branches for a disconnected wallet, a document that lists the
      wallet key (its add-key prompt is disabled) and a document that does
      not belong to the wallet only log. */
  function KeysChecked(s: IdentityState, decryptionKey: Option<Key>, wallet: Option<Wallet>,
                       connected: bool): (t: IdentityState)
    ensures t.did == s.did && t.document == s.document
    ensures t.ready <==> s.ready || DecryptionKeyListed(s, decryptionKey)
  {
    if s.document.Some? && decryptionKey.Some? then
      if !DocHasKey(s.document.value, decryptionKey.value) then
        if wallet.Some? && connected then
          if DocHasKey(s.document.value, wallet.value.publicKey) then
            s  // the DID is the wallet's: adding the key waits for the user
          else
            s  // the DID does not belong to the wallet
        else
          s  // the wallet is not connected yet
      else
        s.(ready := true)
    else
      s
  }

  /** The events that drive the provider, one per callback or effect run. */
  datatype Event =
    | CreateIdentity(created: Result<DidDocument>)
    | AddKey(added: Outcome)
    | ResolveDid(resolved: Result<DidDocument>)
    | LookupDefaultDid(wallet: Option<Wallet>, connected: bool, found: Result<DidDocument>)
    | CheckKeys(wallet: Option<Wallet>, connected: bool)

  function Step(s: IdentityState, decryptionKey: Option<Key>, e: Event): (t: IdentityState)
  {
    match e
    case CreateIdentity(created) => Created(s, created)
    case AddKey(added) => KeyAdded(s, decryptionKey, added)
    case ResolveDid(resolved) => Resolved(s, resolved)
    case LookupDefaultDid(wallet, connected, found) => DefaultDidLookedUp(s, wallet, connected, found)
    case CheckKeys(wallet, connected) => KeysChecked(s, decryptionKey, wallet, connected)
  }

  /** The state after the events `es`, in order. */
  function Run(s: IdentityState, decryptionKey: Option<Key>, es: seq<Event>): (t: IdentityState)
    decreases |es|
  {
    if es == [] then s else Run(Step(s, decryptionKey, es[0]), decryptionKey, es[1..])
  }

  lemma {:induction false} RunAppend(s: IdentityState, decryptionKey: Option<Key>, es: seq<Event>, e: Event)
    ensures Run(s, decryptionKey, es + [e]) == Step(Run(s, decryptionKey, es), decryptionKey, e)
    decreases |es|
  {
    if es == [] {
      assert [e][1..] == [];
    } else {
      assert (es + [e])[1..] == es[1..] + [e];
      RunAppend(Step(s, decryptionKey, es[0]), decryptionKey, es[1..], e);
    }
  }

  /** `ready` is only ever assigned true: no sequence of events resets it. */
  lemma {:induction false} ReadyNeverResets(s: IdentityState, decryptionKey: Option<Key>, es: seq<Event>)
    requires s.ready
    ensures Run(s, decryptionKey, es).ready
    decreases |es|
  {
    if es != [] {
      ReadyNeverResets(Step(s, decryptionKey, es[0]), decryptionKey, es[1..]);
    }
  }

  /** Event `i` of `es` is a successful `addKey`, or a key check that found
      the decryption key on the document held after the events before it. */
  predicate ReadyTrigger(s: IdentityState, decryptionKey: Option<Key>, es: seq<Event>, i: nat)
    requires i < |es|
  {
    (es[i].AddKey? && es[i].added.Pass? && decryptionKey.Some?) ||
    (es[i].CheckKeys? && DecryptionKeyListed(Run(s, decryptionKey, es[..i]), decryptionKey))
  }

  /** `ready` turns true only through a successful `addKey` or through a key
      check that found the decryption key on the document held at that point. */
  lemma {:induction false} ReadyOnlyAfterKeyCheckOrAddKey(s: IdentityState, decryptionKey: Option<Key>, es: seq<Event>)
    requires !s.ready && Run(s, decryptionKey, es).ready
    ensures exists i :: 0 <= i < |es| && ReadyTrigger(s, decryptionKey, es, i)
    decreases |es|
  {
    var n := |es| - 1;
    var before := Run(s, decryptionKey, es[..n]);
    assert es[..n] + [es[n]] == es;
    RunAppend(s, decryptionKey, es[..n], es[n]);
    if before.ready {
      ReadyOnlyAfterKeyCheckOrAddKey(s, decryptionKey, es[..n]);
      var i :| 0 <= i < n && ReadyTrigger(s, decryptionKey, es[..n], i);
      assert es[..n][..i] == es[..i];
      assert es[..n][i] == es[i];
      assert ReadyTrigger(s, decryptionKey, es, i);
    } else {
      assert ReadyTrigger(s, decryptionKey, es, n);
    }
  }

  /** The document is never built or merged locally: it is the one held
      before the events or one delivered by a successful resolution. */
  lemma {:induction false} DocumentOnlyFromResolution(s: IdentityState, decryptionKey: Option<Key>, es: seq<Event>)
    ensures var d := Run(s, decryptionKey, es).document;
      d == s.document ||
      (d.Some? && exists i :: 0 <= i < |es| && es[i] == ResolveDid(Success(d.value)))
    decreases |es|
  {
    if es != [] {
      var s1 := Step(s, decryptionKey, es[0]);
      DocumentOnlyFromResolution(s1, decryptionKey, es[1..]);
      var d := Run(s, decryptionKey, es).document;
      if d == s1.document {
        if d != s.document {
          assert es[0] == ResolveDid(Success(d.value));
        }
      } else {
        var i :| 0 <= i < |es[1..]| && es[1..][i] == ResolveDid(Success(d.value));
        assert es[i + 1] == ResolveDid(Success(d.value));
      }
    }
  }

  /** A set DID is replaced only by a successful `createIdentity`: the
      default-DID lookup never overrides it and nothing else writes it. */
  lemma {:induction false} DidKeptWithoutCreation(s: IdentityState, decryptionKey: Option<Key>, es: seq<Event>)
    requires Truthy(s.did)
    requires forall i :: 0 <= i < |es| ==> !(es[i].CreateIdentity? && es[i].created.Success?)
    ensures Run(s, decryptionKey, es).did == s.did
    decreases |es|
  {
    if es != [] {
      assert !(es[0].CreateIdentity? && es[0].created.Success?);
      forall i | 0 <= i < |es[1..]| ensures !(es[1..][i].CreateIdentity? && es[1..][i].created.Success?) {
        assert es[1..][i] == es[i + 1];
      }
      DidKeptWithoutCreation(Step(s, decryptionKey, es[0]), decryptionKey, es[1..]);
    }
  }

  /** The provisioning scenario: no DID exists for the wallet key `w`; the
      user creates one, whose document lists `w` but not the decryption key
      `k`, so the key check leaves the identity not ready; after `addKey`
      it is ready. */
  lemma ProvisioningScenario(w: Key, k: Key, id: string)
    requires w != k && id != ""
    ensures var doc := DidDocument(id, Some([VerificationMethod(w)]));
      var wallet := Some(Wallet(w));
      var s1 := Run(Initial(None), Some(k), [LookupDefaultDid(wallet, true, Failure("No DID found"))]);
      var s2 := Run(s1, Some(k), [CreateIdentity(Success(doc)), ResolveDid(Success(doc))]);
      var s3 := Run(s2, Some(k), [CheckKeys(wallet, true)]);
      var s4 := Run(s3, Some(k), [AddKey(Pass)]);
      s1.did == None &&
      s2.did == Some(id) && s2.document == Some(doc) &&
      !s3.ready && s4.ready
  {
    var doc := DidDocument(id, Some([VerificationMethod(w)]));
    var wallet := Some(Wallet(w));
    var created := Step(Initial(None), Some(k), CreateIdentity(Success(doc)));
    assert created.did == Some(id);
    assert Run(created, Some(k), [ResolveDid(Success(doc))]) == Step(created, Some(k), ResolveDid(Success(doc)));
    assert !DocHasKey(doc, k);
  }

  /** `ready` does not imply that the held document lists the decryption
      key: at the end of the provisioning scenario `addKey` has set it while
      the document lists only the wallet key, and a later resolution may
      bring a document without the key while `ready` stays. */
  lemma ReadyWithoutListedKey(w: Key, k: Key, id: string, s: IdentityState, doc: DidDocument)
    requires w != k && id != ""
    requires s.ready && Truthy(s.did) && !DocHasKey(doc, k)
    ensures var created := DidDocument(id, Some([VerificationMethod(w)]));
      var wallet := Some(Wallet(w));
      var t := Run(Initial(None), Some(k), [LookupDefaultDid(wallet, true, Failure("No DID found")),
        CreateIdentity(Success(created)), ResolveDid(Success(created)), CheckKeys(wallet, true), AddKey(Pass)]);
      t.ready && t.document == Some(created) && !DecryptionKeyListed(t, Some(k))
    ensures var t := Run(s, Some(k), [ResolveDid(Success(doc))]);
      t.ready && t.document == Some(doc) && !DecryptionKeyListed(t, Some(k))
  {
    var created := DidDocument(id, Some([VerificationMethod(w)]));
    var wallet := Some(Wallet(w));
    var es := [LookupDefaultDid(wallet, true, Failure("No DID found")),
      CreateIdentity(Success(created)), ResolveDid(Success(created)), CheckKeys(wallet, true), AddKey(Pass)];
    var s1 := Step(Initial(None), Some(k), es[0]);
    var s2 := Step(s1, Some(k), es[1]);
    var s3 := Step(s2, Some(k), es[2]);
    assert s3.document == Some(created);
    assert !DocHasKey(created, k);
    var s4 := Step(s3, Some(k), es[3]);
    var s5 := Step(s4, Some(k), es[4]);
    assert Run(s5, Some(k), es[5..]) == s5;
    assert Run(s4, Some(k), es[4..]) == s5;
    assert Run(s3, Some(k), es[3..]) == s5;
    assert Run(s2, Some(k), es[2..]) == s5;
    assert Run(s1, Some(k), es[1..]) == s5;
  }

  /** The identity provider. `decryptionKey` is read from storage and never
      written here; `did` is the persisted DID. */
  class IdentityProvider {
    const decryptionKey: Option<Key>
    var did: Option<string>
    var document: Option<DidDocument>
    var ready: bool

    function State(): IdentityState
      reads this
    {
      IdentityState(did, document, ready)
    }

    constructor (decryptionKey: Option<Key>, storedDid: Option<string>)
      ensures this.decryptionKey == decryptionKey
      ensures State() == Initial(storedDid)
    {
      this.decryptionKey := decryptionKey;
      did := storedDid;
      document := None;
      ready := false;
    }

    /** `createIdentity`: `created` is what the DID creation call delivered;
        its rejection is passed on to the caller. */
    method CreateIdentity(created: Result<DidDocument>) returns (r: Outcome)
      modifies this
      ensures State() == Created(old(State()), created)
      ensures r.Pass? <==> created.Success?
    {
      match created
      case Success(doc) =>
        did := Some(doc.id);
        r := Pass;
      case Failure(e) =>
        r := Fail(e);
    }

    /** `addKey`: `added` is what adding the decryption key to the DID
        delivered. */
    method AddKey(added: Outcome) returns (r: Outcome)
      modifies this
      ensures State() == KeyAdded(old(State()), decryptionKey, added)
      ensures r.Pass? <==> decryptionKey.Some? && added.Pass?
    {
      if decryptionKey.None? {
        r := Fail("Cannot read properties of undefined (reading 'publicKey')");
        return;
      }
      r := added;
      if added.Pass? {
        ready := true;
      }
    }

    /** The effect run when `did` changes. */
    method ResolveOnDidChange(resolved: Result<DidDocument>)
      modifies this
      ensures State() == Resolved(old(State()), resolved)
    {
      if Truthy(did) {
        if resolved.Success? {
          document := Some(resolved.value);
        }
      }
    }

    /** The effect run when the wallet loads and no DID is set. */
    method LookupDefaultDid(wallet: Option<Wallet>, connected: bool, found: Result<DidDocument>)
      modifies this
      ensures State() == DefaultDidLookedUp(old(State()), wallet, connected, found)
    {
      if wallet.Some? && connected && !Truthy(did) {
        if found.Success? {
          did := Some(found.value.id);
        }
      }
    }

    /** The effect run when the document changes. */
    method CheckKeys(wallet: Option<Wallet>, connected: bool)
      modifies this
      ensures State() == KeysChecked(old(State()), decryptionKey, wallet, connected)
    {
      if document.Some? && decryptionKey.Some? {
        if DocHasKey(document.value, decryptionKey.value) {
          ready := true;
        }
      }
    }
  }
}
