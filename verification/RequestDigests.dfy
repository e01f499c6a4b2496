/**
 What equal digests say: the signed values agree on every field but the signature.
 Field by field, two JSON forms are alike exactly when the typed values are equal; the
 records they make are alike exactly when their fields are; and under an injective hash
 equal digests come from records that are alike.
 */
module RequestDigests {
  import opened Basics
  import opened Hashing
  import opened Unicode
  import opened Json
  import opened Jcs
  import opened Encodings
  import opened Digest
  import opened Requests

  // Texts of Rust values are Rust strings.

  /** Every string in the value is a Rust string. */
  predicate RustValue(v: Json) {
    match v
    case Str(s) => Scalars(s)
    case Arr(items) => forall i :: 0 <= i < |items| ==> RustValue(items[i])
    case Obj(ms) => forall i :: 0 <= i < |ms| ==> Scalars(ms[i].key) && RustValue(ms[i].value)
    case _ => true
  }

  lemma {:induction false} StringTailScalars(s: Text)
    requires Scalars(s)
    ensures Scalars(StringTail(s))
  {
    if s != [] { StringTailScalars(s[1..]); }
  }

  lemma {:induction false} PrintScalars(v: Json)
    requires RustValue(v)
    ensures Scalars(Print(v))
    decreases v, 0
  {
    match v
    case Str(s) => StringTailScalars(s);
    case Arr(items) =>
      if items != [] {
        PrintScalars(items[0]);
        ItemsTailScalars(items[1..]);
      }
    case Obj(ms) =>
      if ms != [] {
        MemberScalars(ms[0]);
        MembersTailScalars(ms[1..]);
      }
    case _ =>
  }

  lemma {:induction false} MemberScalars(m: Member)
    requires Scalars(m.key) && RustValue(m.value)
    ensures Scalars(PrintMember(m))
    decreases m, 1
  {
    StringTailScalars(m.key);
    PrintScalars(m.value);
  }

  lemma {:induction false} ItemsTailScalars(items: seq<Json>)
    requires RustValue(Arr(items))
    ensures Scalars(ItemsTail(items))
    decreases items, 1
  {
    if items != [] {
      PrintScalars(items[0]);
      ItemsTailScalars(items[1..]);
    }
  }

  lemma {:induction false} MembersTailScalars(ms: seq<Member>)
    requires RustValue(Obj(ms))
    ensures Scalars(MembersTail(ms))
    decreases ms, 2
  {
    if ms != [] {
      MemberScalars(ms[0]);
      MembersTailScalars(ms[1..]);
    }
  }

  lemma {:induction false} CanonRust(v: Json)
    requires RustValue(v)
    ensures RustValue(Canon(v))
  {
    match v
    case Arr(items) =>
      forall i | 0 <= i < |items| ensures RustValue(CanonItems(items)[i]) { CanonRust(items[i]); }
    case Obj(ms) =>
      var c := CanonMembers(ms);
      forall i | 0 <= i < |c| ensures Scalars(Sort(c)[i].key) && RustValue(Sort(c)[i].value) {
        assert Sort(c)[i] in c;
        var j :| 0 <= j < |c| && c[j] == Sort(c)[i];
        CanonRust(ms[j].value);
      }
    case _ =>
  }

  /** Digests of one kind are equal exactly when the values print alike. */
  lemma DigestsAlike(hash: Bytes -> Bytes, domain: string, v: Json, w: Json)
    requires Injective(hash) && Plain(domain)
    requires RustValue(v) && RustValue(w) && FloatFree(v) && FloatFree(w)
    ensures DigestOf(hash, domain, v) == DigestOf(hash, domain, w) <==> Alike(v, w)
  {
    CanonRust(v);
    CanonRust(w);
    PrintScalars(Canon(v));
    PrintScalars(Canon(w));
    Utf8Injective(Canonical(v), Canonical(w));
    CanonFloatFree(v);
    CanonFloatFree(w);
    PrintInjective(Canon(v), Canon(w));
    DigestNamesDomainAndPayload(hash, domain, Utf8(Canonical(v)), domain, Utf8(Canonical(w)));
  }

  // Alike JSON forms come from equal values.

  lemma KindsAlike(a: seq<OperationKind>, b: seq<OperationKind>)
    ensures Alike(Arr(KindsJson(a)), Arr(KindsJson(b))) <==> a == b
  {
    ArraysAlike(KindsJson(a), KindsJson(b));
    if Alike(Arr(KindsJson(a)), Arr(KindsJson(b))) {
      forall i | 0 <= i < |a| ensures a[i] == b[i] {
        assert Alike(KindsJson(a)[i], KindsJson(b)[i]);
        WordsAlike(KindName(a[i]), KindName(b[i]));
      }
    }
  }

  lemma ClientGrantAlike(a: ClientGrant, b: ClientGrant)
    ensures Alike(ClientGrantJson(a), ClientGrantJson(b)) <==> a == b
  {
    var vs := [Hex(a.clientPublicKey), Arr(KindsJson(a.allowedOperations))];
    var ws := [Hex(b.clientPublicKey), Arr(KindsJson(b.allowedOperations))];
    RecordsAlike(CLIENT_GRANT_NAMES, vs, ws);
    if AllAlike(vs, ws) {
      assert Alike(vs[0], ws[0]) && Alike(vs[1], ws[1]);
      HexAlike(a.clientPublicKey, b.clientPublicKey);
      KindsAlike(a.allowedOperations, b.allowedOperations);
    }
  }

  lemma ClientGrantsAlike(a: seq<ClientGrant>, b: seq<ClientGrant>)
    ensures Alike(Arr(ClientGrantsJson(a)), Arr(ClientGrantsJson(b))) <==> a == b
  {
    ArraysAlike(ClientGrantsJson(a), ClientGrantsJson(b));
    if Alike(Arr(ClientGrantsJson(a)), Arr(ClientGrantsJson(b))) {
      forall i | 0 <= i < |a| ensures a[i] == b[i] {
        assert Alike(ClientGrantsJson(a)[i], ClientGrantsJson(b)[i]);
        ClientGrantAlike(a[i], b[i]);
      }
    }
  }

  lemma NetworksAlike(m: Network, n: Network)
    ensures Alike(Word(NetworkName(m)), Word(NetworkName(n))) <==> m == n
  {
    WordsAlike(NetworkName(m), NetworkName(n));
  }

  /** A descriptor's eight fields before its signature agree exactly when it does but for the signature. */
  lemma EarlyDescriptorFields(a: WalletDescriptor, b: WalletDescriptor)
    requires forall i :: 0 <= i < 4 ==> Alike(DescriptorValues(a)[i], DescriptorValues(b)[i])
    ensures a.version == b.version && a.securityDomainId == b.securityDomainId && a.network == b.network
    ensures a.turnkeyOrganizationId == b.turnkeyOrganizationId
  {
    var vs, ws := DescriptorValues(a), DescriptorValues(b);
    assert Alike(vs[0], ws[0]) && Alike(vs[1], ws[1]) && Alike(vs[2], ws[2]) && Alike(vs[3], ws[3]);
    HexAlike(a.securityDomainId, b.securityDomainId);
    NetworksAlike(a.network, b.network);
  }

  lemma LateDescriptorFields(a: WalletDescriptor, b: WalletDescriptor)
    requires forall i :: 4 <= i < 8 ==> Alike(DescriptorValues(a)[i], DescriptorValues(b)[i])
    ensures a.turnkeyWalletId == b.turnkeyWalletId && a.address == b.address
    ensures a.allowedClients == b.allowedClients && a.expiresAtMs == b.expiresAtMs
  {
    var vs, ws := DescriptorValues(a), DescriptorValues(b);
    assert Alike(vs[4], ws[4]) && Alike(vs[5], ws[5]) && Alike(vs[6], ws[6]) && Alike(vs[7], ws[7]);
    ClientGrantsAlike(a.allowedClients, b.allowedClients);
    DecimalsAlike(a.expiresAtMs, b.expiresAtMs);
  }

  lemma DescriptorFieldsAlike(a: WalletDescriptor, b: WalletDescriptor)
    ensures AllAlike(DescriptorValues(a)[..8], DescriptorValues(b)[..8])
       <==> a.(provisioningSignature := []) == b.(provisioningSignature := [])
  {
    var vs, ws := DescriptorValues(a), DescriptorValues(b);
    if AllAlike(vs[..8], ws[..8]) {
      forall i | 0 <= i < 8 ensures Alike(vs[i], ws[i]) { assert Alike(vs[..8][i], ws[..8][i]); }
      EarlyDescriptorFields(a, b);
      LateDescriptorFields(a, b);
    }
    if a.(provisioningSignature := []) == b.(provisioningSignature := []) {
      assert vs[..8] == ws[..8];
    }
  }

  lemma DescriptorNamesDistinct()
    ensures Distinct(DESCRIPTOR_NAMES) && Distinct(DESCRIPTOR_NAMES[..8])
  {
  }

  lemma DescriptorAlike(a: WalletDescriptor, b: WalletDescriptor)
    ensures Alike(DescriptorJson(a), DescriptorJson(b)) <==> a == b
  {
    var vs, ws := DescriptorValues(a), DescriptorValues(b);
    DescriptorNamesDistinct();
    RecordsAlike(DESCRIPTOR_NAMES, vs, ws);
    if AllAlike(vs, ws) {
      assert forall i :: 0 <= i < 8 ==> vs[..8][i] == vs[i] && ws[..8][i] == ws[i];
      DescriptorFieldsAlike(a, b);
      assert Alike(vs[8], ws[8]);
      HexAlike(a.provisioningSignature, b.provisioningSignature);
    }
  }

  // Descriptors, bindings and grants.

  /** Two descriptors have one digest exactly when they agree on everything but the provisioning signature. */
  lemma DescriptorDigestNamesDescriptor(hash: Bytes -> Bytes, a: WalletDescriptor, b: WalletDescriptor)
    requires Injective(hash) && RustValue(DescriptorJson(a)) && RustValue(DescriptorJson(b))
    ensures DescriptorDigest(hash, a).Some?
    ensures DescriptorDigest(hash, a) == DescriptorDigest(hash, b)
       <==> a.(provisioningSignature := []) == b.(provisioningSignature := [])
  {
    DescriptorNamesDistinct();
    SigningDomainsPlain();
    UnsignedDescriptor(a);
    UnsignedDescriptor(b);
    var names, vs, ws := DESCRIPTOR_NAMES[..8], DescriptorValues(a)[..8], DescriptorValues(b)[..8];
    DigestsAlike(hash, PROVISIONING_AUTH_DOMAIN, Record(names, vs), Record(names, ws));
    RecordsAlike(names, vs, ws);
    DescriptorFieldsAlike(a, b);
  }

  lemma UnsignedDescriptor(d: WalletDescriptor)
    requires RustValue(DescriptorJson(d))
    ensures Remove(Fields(DESCRIPTOR_NAMES, DescriptorValues(d)), Name("provisioning_signature"))
         == Fields(DESCRIPTOR_NAMES[..8], DescriptorValues(d)[..8])
    ensures RustValue(Record(DESCRIPTOR_NAMES[..8], DescriptorValues(d)[..8]))
    ensures FloatFree(Record(DESCRIPTOR_NAMES[..8], DescriptorValues(d)[..8]))
  {
    DescriptorNamesDistinct();
    RemoveLastField(DESCRIPTOR_NAMES, DescriptorValues(d));
    var ms, all := Fields(DESCRIPTOR_NAMES[..8], DescriptorValues(d)[..8]), Fields(DESCRIPTOR_NAMES, DescriptorValues(d));
    assert forall i :: 0 <= i < 8 ==> ms[i] == all[i];
    DescriptorFloatFree(d);
  }

  lemma DescriptorFloatFree(d: WalletDescriptor)
    ensures FloatFree(DescriptorJson(d))
  {
    var ms := Fields(DESCRIPTOR_NAMES, DescriptorValues(d));
    forall i | 0 <= i < |ms| ensures FloatFree(ms[i].value) {
      if i == 6 { ClientGrantsFloatFree(d.allowedClients); }
    }
  }

  lemma ClientGrantsFloatFree(gs: seq<ClientGrant>)
    ensures FloatFree(Arr(ClientGrantsJson(gs)))
  {
    forall i | 0 <= i < |gs| ensures FloatFree(ClientGrantsJson(gs)[i]) {
      var ms := Fields(CLIENT_GRANT_NAMES,
        [Hex(gs[i].clientPublicKey), Arr(KindsJson(gs[i].allowedOperations))]);
      assert ClientGrantJson(gs[i]) == Obj(ms);
      assert FloatFree(ms[0].value) && FloatFree(ms[1].value);
    }
  }

  lemma BindingAlike(a: WalletDescriptor, b: WalletDescriptor)
    ensures Alike(BindingJson(a), BindingJson(b)) <==> SameWallet(a, b)
  {
    assert Distinct(BINDING_NAMES);
    RecordsAlike(BINDING_NAMES, BindingValues(a), BindingValues(b));
    if AllAlike(BindingValues(a), BindingValues(b)) { BindingFieldsAlike(a, b); }
    if SameWallet(a, b) { assert BindingValues(a) == BindingValues(b); }
  }

  lemma BindingFieldsAlike(a: WalletDescriptor, b: WalletDescriptor)
    requires AllAlike(BindingValues(a), BindingValues(b))
    ensures SameWallet(a, b)
  {
    var vs, ws := BindingValues(a), BindingValues(b);
    assert Alike(vs[0], ws[0]) && Alike(vs[1], ws[1]) && Alike(vs[2], ws[2]) && Alike(vs[3], ws[3]) && Alike(vs[4], ws[4]);
    HexAlike(a.securityDomainId, b.securityDomainId);
    NetworksAlike(a.network, b.network);
  }

  /** The five fields that name a wallet. */
  predicate SameWallet(a: WalletDescriptor, b: WalletDescriptor) {
    && a.network == b.network
    && a.securityDomainId == b.securityDomainId
    && a.turnkeyOrganizationId == b.turnkeyOrganizationId
    && a.turnkeyWalletId == b.turnkeyWalletId
    && a.address == b.address
  }

  /** Two descriptors have one wallet binding exactly when the five wallet fields agree. */
  lemma WalletBindingNamesWallet(hash: Bytes -> Bytes, a: WalletDescriptor, b: WalletDescriptor)
    requires Injective(hash) && RustValue(BindingJson(a)) && RustValue(BindingJson(b))
    ensures WalletBindingDigest(hash, a).Some?
    ensures WalletBindingDigest(hash, a) == WalletBindingDigest(hash, b) <==> SameWallet(a, b)
  {
    IdentityDomainsPlain();
    BindingFloatFree(a);
    BindingFloatFree(b);
    DigestsAlike(hash, WALLET_BINDING_DOMAIN, BindingJson(a), BindingJson(b));
    BindingAlike(a, b);
  }

  lemma BindingFloatFree(d: WalletDescriptor)
    ensures FloatFree(BindingJson(d))
  {
    assert FloatFreeMembers(Fields(BINDING_NAMES, BindingValues(d)));
  }

  function BindingValues(d: WalletDescriptor): (r: seq<Json>)
    ensures |r| == 5 && BindingJson(d) == Record(BINDING_NAMES, r)
  {
    [Word(NetworkName(d.network)), Hex(d.securityDomainId), Str(d.turnkeyOrganizationId),
     Str(d.turnkeyWalletId), Str(d.address)]
  }

  lemma GrantNamesDistinct()
    ensures Distinct(GRANT_NAMES) && Distinct(GRANT_NAMES[..6])
  {
  }

  lemma UnsignedGrant(g: WalletGrant)
    requires RustValue(Record(GRANT_NAMES, GrantValues(g)))
    ensures Remove(Fields(GRANT_NAMES, GrantValues(g)), Name("signature"))
         == Fields(GRANT_NAMES[..6], GrantValues(g)[..6])
    ensures RustValue(Record(GRANT_NAMES[..6], GrantValues(g)[..6]))
    ensures FloatFree(Record(GRANT_NAMES[..6], GrantValues(g)[..6]))
  {
    GrantNamesDistinct();
    RemoveLastField(GRANT_NAMES, GrantValues(g));
    var ms, all := Fields(GRANT_NAMES[..6], GrantValues(g)[..6]), Fields(GRANT_NAMES, GrantValues(g));
    assert forall i :: 0 <= i < 6 ==> ms[i] == all[i];
  }

  lemma GrantFieldsAlike(a: WalletGrant, b: WalletGrant)
    ensures AllAlike(GrantValues(a)[..6], GrantValues(b)[..6]) <==> a.(signature := []) == b.(signature := [])
  {
    var vs, ws := GrantValues(a)[..6], GrantValues(b)[..6];
    if AllAlike(vs, ws) {
      assert Alike(vs[0], ws[0]) && Alike(vs[1], ws[1]) && Alike(vs[2], ws[2]);
      assert Alike(vs[3], ws[3]) && Alike(vs[4], ws[4]) && Alike(vs[5], ws[5]);
      HexAlike(a.descriptorDigest, b.descriptorDigest);
      DecimalsAlike(a.issuedAtMs, b.issuedAtMs);
      DecimalsAlike(a.expiresAtMs, b.expiresAtMs);
    }
    if a.(signature := []) == b.(signature := []) {
      assert vs == ws;
    }
  }

  /** Two grants have one digest exactly when they agree on everything but the signature. */
  lemma GrantDigestNamesGrant(hash: Bytes -> Bytes, a: WalletGrant, b: WalletGrant)
    requires Injective(hash)
    requires RustValue(Record(GRANT_NAMES, GrantValues(a))) && RustValue(Record(GRANT_NAMES, GrantValues(b)))
    ensures WalletGrantDigest(hash, a).Some?
    ensures WalletGrantDigest(hash, a) == WalletGrantDigest(hash, b) <==> a.(signature := []) == b.(signature := [])
  {
    GrantNamesDistinct();
    SigningDomainsPlain();
    UnsignedGrant(a);
    UnsignedGrant(b);
    var names, vs, ws := GRANT_NAMES[..6], GrantValues(a)[..6], GrantValues(b)[..6];
    DigestsAlike(hash, WALLET_GRANT_DOMAIN, Record(names, vs), Record(names, ws));
    RecordsAlike(names, vs, ws);
    GrantFieldsAlike(a, b);
  }

  // Operations.

  lemma DecryptItemAlike(a: DecryptItem, b: DecryptItem)
    ensures Alike(DecryptItemJson(a), DecryptItemJson(b)) <==> a == b
  {
    var vs := [Hex(a.ciphertext), Hex(a.viewingPublicKey), Hex(a.transactionViewingPublicKey), Hex(a.salt),
               DecimalU64(a.slotIndex), Word(LabelName(a.lbl))];
    var ws := [Hex(b.ciphertext), Hex(b.viewingPublicKey), Hex(b.transactionViewingPublicKey), Hex(b.salt),
               DecimalU64(b.slotIndex), Word(LabelName(b.lbl))];
    RecordsAlike(DECRYPT_ITEM_NAMES, vs, ws);
    if AllAlike(vs, ws) {
      assert Alike(vs[0], ws[0]) && Alike(vs[1], ws[1]) && Alike(vs[2], ws[2]);
      assert Alike(vs[3], ws[3]) && Alike(vs[4], ws[4]) && Alike(vs[5], ws[5]);
      HexAlike(a.ciphertext, b.ciphertext);
      HexAlike(a.viewingPublicKey, b.viewingPublicKey);
      HexAlike(a.transactionViewingPublicKey, b.transactionViewingPublicKey);
      HexAlike(a.salt, b.salt);
      DecimalsAlike(a.slotIndex, b.slotIndex);
      WordsAlike(LabelName(a.lbl), LabelName(b.lbl));
    }
  }

  lemma DeriveTagsDiffer(a: DeriveItem, b: DeriveItem)
    requires DeriveTag(a) == DeriveTag(b)
    ensures DeriveNames(a) == DeriveNames(b)
    ensures a.Nullifier? == b.Nullifier? && a.MergeDummyNullifier? == b.MergeDummyNullifier?
    ensures a.MergeOutputBlinding? == b.MergeOutputBlinding? && a.MergeOutputKey? == b.MergeOutputKey?
  {
  }

  lemma DeriveItemAlike(a: DeriveItem, b: DeriveItem)
    ensures Alike(DeriveItemJson(a), DeriveItemJson(b)) <==> a == b
  {
    var vs, ws := DeriveValues(a), DeriveValues(b);
    if Alike(DeriveItemJson(a), DeriveItemJson(b)) {
      DeriveNamesDistinct(b);
      TagsAlike(DeriveNames(a), vs, DeriveNames(b), ws);
      WordsAlike(DeriveTag(a), DeriveTag(b));
      DeriveTagsDiffer(a, b);
      RecordsAlike(DeriveNames(a), vs, ws);
      assert Alike(vs[1], ws[1]);
      match a
      case Nullifier(utxoHash, blinding) =>
        HexAlike(utxoHash, b.utxoHash);
        assert Alike(vs[2], ws[2]);
        HexAlike(blinding, b.blinding);
      case MergeDummyNullifier(first, slot) =>
        HexAlike(first, b.firstNullifier);
        assert Alike(vs[2], ws[2]);
        DecimalsAlike(slot, b.slotIndex);
      case _ => HexAlike(a.firstNullifier, b.firstNullifier);
    }
  }

  lemma DeriveNamesDistinct(i: DeriveItem)
    ensures Distinct(DeriveNames(i)) && DeriveNames(i)[0] == "kind"
  {
  }

  lemma KeyItemAlike(a: TransactionKeyItem, b: TransactionKeyItem)
    ensures Alike(KeyItemJson(a), KeyItemJson(b)) <==> a == b
  {
    var vs := [Hex(a.viewingPublicKey), Hex(a.firstNullifier)];
    var ws := [Hex(b.viewingPublicKey), Hex(b.firstNullifier)];
    RecordsAlike(KEY_ITEM_NAMES, vs, ws);
    if AllAlike(vs, ws) {
      assert Alike(vs[0], ws[0]) && Alike(vs[1], ws[1]);
      HexAlike(a.viewingPublicKey, b.viewingPublicKey);
      HexAlike(a.firstNullifier, b.firstNullifier);
    }
  }

  lemma DecryptsAlike(a: seq<DecryptItem>, b: seq<DecryptItem>)
    ensures Alike(Arr(DecryptsJson(a)), Arr(DecryptsJson(b))) <==> a == b
  {
    ArraysAlike(DecryptsJson(a), DecryptsJson(b));
    if AllAlike(DecryptsJson(a), DecryptsJson(b)) {
      forall i | 0 <= i < |a| ensures a[i] == b[i] {
        assert Alike(DecryptsJson(a)[i], DecryptsJson(b)[i]);
        DecryptItemAlike(a[i], b[i]);
      }
    }
  }

  lemma DerivesAlike(a: seq<DeriveItem>, b: seq<DeriveItem>)
    ensures Alike(Arr(DerivesJson(a)), Arr(DerivesJson(b))) <==> a == b
  {
    ArraysAlike(DerivesJson(a), DerivesJson(b));
    if AllAlike(DerivesJson(a), DerivesJson(b)) {
      forall i | 0 <= i < |a| ensures a[i] == b[i] {
        assert Alike(DerivesJson(a)[i], DerivesJson(b)[i]);
        DeriveItemAlike(a[i], b[i]);
      }
    }
  }

  lemma KeysAlike(a: seq<TransactionKeyItem>, b: seq<TransactionKeyItem>)
    ensures Alike(Arr(KeysJson(a)), Arr(KeysJson(b))) <==> a == b
  {
    ArraysAlike(KeysJson(a), KeysJson(b));
    if AllAlike(KeysJson(a), KeysJson(b)) {
      forall i | 0 <= i < |a| ensures a[i] == b[i] {
        assert Alike(KeysJson(a)[i], KeysJson(b)[i]);
        KeyItemAlike(a[i], b[i]);
      }
    }
  }

  /** Equal operations, where a `Prove` carries JSON that counts up to member order. */
  ghost predicate SameOperation(a: Operation, b: Operation) {
    if a.ProveOp? && b.ProveOp? then
      && SameValue(a.request, b.request)
      && a.prover.target == b.prover.target
      && a.prover.nonce == b.prover.nonce
      && SameValue(a.prover.attestation, b.prover.attestation)
      && SameValue(a.prover.policy, b.prover.policy)
    else a == b
  }

  /** JSON inside a `Prove` has distinct keys, as parsed JSON does. */
  predicate WellFormedOperation(op: Operation) {
    op.ProveOp? ==> WellFormed(op.request) && WellFormed(op.prover.attestation) && WellFormed(op.prover.policy)
  }

  lemma SealingAlike(a: ProverSealing, b: ProverSealing)
    ensures Alike(SealingJson(a), SealingJson(b)) <==>
      && a.target == b.target && a.nonce == b.nonce
      && Alike(a.attestation, b.attestation) && Alike(a.policy, b.policy)
  {
    var vs := [Str(a.target), Hex(a.nonce), a.attestation, a.policy];
    var ws := [Str(b.target), Hex(b.nonce), b.attestation, b.policy];
    RecordsAlike(SEALING_NAMES, vs, ws);
    HexAlike(a.nonce, b.nonce);
    if AllAlike(vs, ws) {
      assert Alike(vs[0], ws[0]) && Alike(vs[1], ws[1]) && Alike(vs[2], ws[2]) && Alike(vs[3], ws[3]);
    }
  }

  lemma OperationNamesDistinct(op: Operation)
    ensures Distinct(OperationNames(op)) && OperationNames(op)[0] == "type"
  {
  }

  lemma SameKindAlike(a: Operation, b: Operation)
    requires OperationKindOf(a) == OperationKindOf(b)
    ensures Alike(OperationJson(a), OperationJson(b)) <==>
      (match a
       case BootstrapOp => true
       case DecryptOp(items) => items == b.decrypts
       case DeriveOp(items) => items == b.derives
       case TransactionKeysOp(items) => items == b.keys
       case ProveOp(request, prover) =>
         Alike(request, b.request) && Alike(SealingJson(prover), SealingJson(b.prover)))
  {
    var vs, ws := OperationValues(a), OperationValues(b);
    OperationNamesDistinct(a);
    RecordsAlike(OperationNames(a), vs, ws);
    if |vs| > 1 { assert AllAlike(vs, ws) ==> Alike(vs[1], ws[1]); }
    if |vs| > 2 { assert AllAlike(vs, ws) ==> Alike(vs[2], ws[2]); }
    match a
    case BootstrapOp =>
    case DecryptOp(items) => DecryptsAlike(items, b.decrypts);
    case DeriveOp(items) => DerivesAlike(items, b.derives);
    case TransactionKeysOp(items) => KeysAlike(items, b.keys);
    case ProveOp(_, _) =>
  }

  lemma OperationAlike(a: Operation, b: Operation)
    requires WellFormedOperation(a) && WellFormedOperation(b)
    ensures Alike(OperationJson(a), OperationJson(b)) <==> SameOperation(a, b)
  {
    if OperationKindOf(a) != OperationKindOf(b) {
      if Alike(OperationJson(a), OperationJson(b)) {
        OperationNamesDistinct(a);
        OperationNamesDistinct(b);
        TagsAlike(OperationNames(a), OperationValues(a), OperationNames(b), OperationValues(b));
        WordsAlike(KindName(OperationKindOf(a)), KindName(OperationKindOf(b)));
      }
    } else {
      SameKindAlike(a, b);
      if a.ProveOp? {
        SealingAlike(a.prover, b.prover);
        AlikeIsSame(a.request, b.request);
        AlikeIsSame(a.prover.attestation, b.prover.attestation);
        AlikeIsSame(a.prover.policy, b.prover.policy);
      }
    }
  }

  lemma AlikeIsSame(v: Json, w: Json)
    requires WellFormed(v) && WellFormed(w)
    ensures Alike(v, w) <==> SameValue(v, w)
  {
    if Alike(v, w) { SameCanonSameValue(v, w); }
    if SameValue(v, w) { SameValueSameCanon(v, w); }
  }

  // Requests.

  /** Equal but for the client's signature. */
  ghost predicate SameRequest(a: OperationRequest, b: OperationRequest) {
    && SameOperation(a.operation, b.operation)
    && a.(operation := BootstrapOp, signature := []) == b.(operation := BootstrapOp, signature := [])
  }

  function UnsignedAuthorization(r: OperationRequest): Json {
    Obj(Remove(Authorization(r), Name("signature")))
  }

  lemma UnsignedAuthorizationAlike(a: OperationRequest, b: OperationRequest)
    ensures Alike(UnsignedAuthorization(a), UnsignedAuthorization(b)) <==> a.clientKeyId == b.clientKeyId
  {
    UnsignedAuthorizationIs(a);
    UnsignedAuthorizationIs(b);
    var names, vs, ws := ["client_key_id"], [Str(a.clientKeyId)], [Str(b.clientKeyId)];
    RecordsAlike(names, vs, ws);
    assert AllAlike(vs, ws) ==> Alike(vs[0], ws[0]);
  }

  lemma UnsignedAuthorizationIs(r: OperationRequest)
    ensures UnsignedAuthorization(r) == Record(["client_key_id"], [Str(r.clientKeyId)])
  {
    var values := [Str(r.clientKeyId), Hex(r.signature)];
    assert Distinct(AUTHORIZATION_NAMES);
    RemoveLastField(AUTHORIZATION_NAMES, values);
    assert AUTHORIZATION_NAMES[..1] == ["client_key_id"] && values[..1] == [Str(r.clientKeyId)];
  }

  lemma OptionalHexAlike(a: Option<Bytes>, b: Option<Bytes>)
    ensures Alike(OptionalHex(a), OptionalHex(b)) <==> a == b
  {
    if a.Some? && b.Some? { HexAlike(a.value, b.value); }
  }

  lemma RequestNamesDistinct()
    ensures Distinct(REQUEST_NAMES)
  {
  }

  lemma IdFieldsAlike(a: OperationRequest, b: OperationRequest, x: Json, y: Json)
    requires AllAlike(RequestValues(a, x), RequestValues(b, y))
    ensures a.version == b.version && a.requestId == b.requestId
  {
    var vs, ws := RequestValues(a, x), RequestValues(b, y);
    assert Alike(vs[0], ws[0]) && Alike(vs[1], ws[1]);
    HexAlike(a.requestId, b.requestId);
  }

  lemma TimeFieldsAlike(a: OperationRequest, b: OperationRequest, x: Json, y: Json)
    requires AllAlike(RequestValues(a, x), RequestValues(b, y))
    ensures a.issuedAtMs == b.issuedAtMs && a.expiresAtMs == b.expiresAtMs
  {
    var vs, ws := RequestValues(a, x), RequestValues(b, y);
    assert Alike(vs[2], ws[2]) && Alike(vs[3], ws[3]);
    DecimalsAlike(a.issuedAtMs, b.issuedAtMs);
    DecimalsAlike(a.expiresAtMs, b.expiresAtMs);
  }

  lemma TargetFieldsAlike(a: OperationRequest, b: OperationRequest, x: Json, y: Json)
    requires AllAlike(RequestValues(a, x), RequestValues(b, y))
    ensures a.targetReleaseId == b.targetReleaseId && a.targetManifestDigest == b.targetManifestDigest
    ensures a.targetExecutableDigest == b.targetExecutableDigest
  {
    var vs, ws := RequestValues(a, x), RequestValues(b, y);
    assert Alike(vs[4], ws[4]) && Alike(vs[5], ws[5]) && Alike(vs[6], ws[6]);
    HexAlike(a.targetManifestDigest, b.targetManifestDigest);
    HexAlike(a.targetExecutableDigest, b.targetExecutableDigest);
  }

  lemma LateFieldsAlike(a: OperationRequest, b: OperationRequest, x: Json, y: Json)
    requires AllAlike(RequestValues(a, x), RequestValues(b, y))
    ensures a.quorumKeyId == b.quorumKeyId && a.quorumKeyEpoch == b.quorumKeyEpoch
    ensures a.walletDescriptor == b.walletDescriptor && a.sealedSeed == b.sealedSeed
    ensures a.clientResponsePublicKey == b.clientResponsePublicKey
    ensures Alike(OperationJson(a.operation), OperationJson(b.operation)) && Alike(x, y)
  {
    var vs, ws := RequestValues(a, x), RequestValues(b, y);
    assert Alike(vs[7], ws[7]) && Alike(vs[8], ws[8]) && Alike(vs[9], ws[9]) && Alike(vs[10], ws[10]);
    assert Alike(vs[11], ws[11]) && Alike(vs[12], ws[12]) && Alike(vs[13], ws[13]);
    DecimalsAlike(a.quorumKeyEpoch, b.quorumKeyEpoch);
    DescriptorAlike(a.walletDescriptor, b.walletDescriptor);
    OptionalHexAlike(a.sealedSeed, b.sealedSeed);
    HexAlike(a.clientResponsePublicKey, b.clientResponsePublicKey);
  }

  lemma SameFieldsAlike(a: OperationRequest, b: OperationRequest, x: Json, y: Json)
    requires a.(operation := BootstrapOp, signature := []) == b.(operation := BootstrapOp, signature := [])
    requires Alike(OperationJson(a.operation), OperationJson(b.operation)) && Alike(x, y)
    ensures AllAlike(RequestValues(a, x), RequestValues(b, y))
  {
    var vs, ws := RequestValues(a, x), RequestValues(b, y);
    assert a.walletDescriptor == b.walletDescriptor && a.sealedSeed == b.sealedSeed;
    forall i | 0 <= i < |vs| ensures Alike(vs[i], ws[i]) {
      if i != 12 && i != 13 { assert vs[i] == ws[i]; }
    }
  }

  /**
   Two requests have one digest exactly when they agree on every field but the
   signature; `client_key_id` counts.
   */
  lemma RequestDigestNamesRequest(hash: Bytes -> Bytes, a: OperationRequest, b: OperationRequest)
    requires Injective(hash) && WellFormedOperation(a.operation) && WellFormedOperation(b.operation)
    requires RustValue(Record(REQUEST_NAMES, RequestValues(a, UnsignedAuthorization(a))))
    requires RustValue(Record(REQUEST_NAMES, RequestValues(b, UnsignedAuthorization(b))))
    requires RequestDigest(hash, a).Some? && RequestDigest(hash, b).Some?
    ensures RequestDigest(hash, a) == RequestDigest(hash, b) <==> SameRequest(a, b)
  {
    var x, y := UnsignedAuthorization(a), UnsignedAuthorization(b);
    var vs, ws := RequestValues(a, x), RequestValues(b, y);
    SigningDomainsPlain();
    RequestNamesDistinct();
    DigestsAlike(hash, REQUEST_DIGEST_DOMAIN, Record(REQUEST_NAMES, vs), Record(REQUEST_NAMES, ws));
    RecordsAlike(REQUEST_NAMES, vs, ws);
    UnsignedAuthorizationAlike(a, b);
    OperationAlike(a.operation, b.operation);
    if AllAlike(vs, ws) {
      IdFieldsAlike(a, b, x, y);
      TimeFieldsAlike(a, b, x, y);
      TargetFieldsAlike(a, b, x, y);
      LateFieldsAlike(a, b, x, y);
    }
    if SameRequest(a, b) {
      assert a.(operation := BootstrapOp, signature := []).clientKeyId == a.clientKeyId;
      SameFieldsAlike(a, b, x, y);
    }
  }

  // Refusals.

  predicate FloatFreeOperation(op: Operation) {
    op.ProveOp? ==> FloatFree(op.request) && FloatFree(op.prover.attestation) && FloatFree(op.prover.policy)
  }

  lemma RecordFloatFree(names: seq<string>, values: seq<Json>)
    requires |names| == |values|
    ensures FloatFree(Record(names, values)) <==> forall i :: 0 <= i < |values| ==> FloatFree(values[i])
  {
    var ms := Fields(names, values);
    if FloatFree(Obj(ms)) {
      forall i | 0 <= i < |values| ensures FloatFree(values[i]) { assert FloatFree(ms[i].value); }
    }
  }

  lemma DecryptsFloatFree(items: seq<DecryptItem>)
    ensures FloatFree(Arr(DecryptsJson(items)))
  {
    forall i | 0 <= i < |items| ensures FloatFree(DecryptItemJson(items[i])) {
      var it := items[i];
      RecordFloatFree(DECRYPT_ITEM_NAMES,
        [Hex(it.ciphertext), Hex(it.viewingPublicKey), Hex(it.transactionViewingPublicKey), Hex(it.salt),
         DecimalU64(it.slotIndex), Word(LabelName(it.lbl))]);
    }
  }

  lemma DerivesFloatFree(items: seq<DeriveItem>)
    ensures FloatFree(Arr(DerivesJson(items)))
  {
    forall i | 0 <= i < |items| ensures FloatFree(DeriveItemJson(items[i])) {
      RecordFloatFree(DeriveNames(items[i]), DeriveValues(items[i]));
    }
  }

  lemma KeysFloatFree(items: seq<TransactionKeyItem>)
    ensures FloatFree(Arr(KeysJson(items)))
  {
    forall i | 0 <= i < |items| ensures FloatFree(KeyItemJson(items[i])) {
      RecordFloatFree(KEY_ITEM_NAMES, [Hex(items[i].viewingPublicKey), Hex(items[i].firstNullifier)]);
    }
  }

  lemma ItemsOperationFloatFree(op: Operation)
    requires op.DecryptOp? || op.DeriveOp? || op.TransactionKeysOp?
    ensures FloatFree(OperationJson(op))
  {
    RecordFloatFree(OperationNames(op), OperationValues(op));
    match op
    case DecryptOp(items) => DecryptsFloatFree(items);
    case DeriveOp(items) => DerivesFloatFree(items);
    case TransactionKeysOp(items) => KeysFloatFree(items);
  }

  lemma ProveOperationFloatFree(op: Operation)
    requires op.ProveOp?
    ensures FloatFree(OperationJson(op)) <==> FloatFreeOperation(op)
  {
    var values, prover := OperationValues(op), op.prover;
    RecordFloatFree(OperationNames(op), values);
    var sealing := [Str(prover.target), Hex(prover.nonce), prover.attestation, prover.policy];
    RecordFloatFree(SEALING_NAMES, sealing);
    assert FloatFree(SealingJson(prover)) <==> FloatFree(sealing[2]) && FloatFree(sealing[3]);
    assert values[1] == op.request && values[2] == SealingJson(prover);
  }

  lemma OperationFloatFree(op: Operation)
    ensures FloatFree(OperationJson(op)) <==> FloatFreeOperation(op)
  {
    if op.BootstrapOp? {
      RecordFloatFree(OperationNames(op), OperationValues(op));
    } else if op.ProveOp? {
      ProveOperationFloatFree(op);
    } else {
      ItemsOperationFloatFree(op);
    }
  }

  lemma EarlyFieldsFloatFree(r: OperationRequest, authorization: Json)
    ensures forall i :: 0 <= i < 7 ==> FloatFree(RequestValues(r, authorization)[i])
  {
  }

  lemma LateFieldsFloatFree(r: OperationRequest, authorization: Json)
    requires FloatFree(authorization)
    ensures forall i :: 7 <= i < 14 && i != 12 ==> FloatFree(RequestValues(r, authorization)[i])
  {
    DescriptorFloatFree(r.walletDescriptor);
  }

  lemma RequestFloatFree(r: OperationRequest, authorization: Json)
    requires FloatFree(authorization)
    ensures FloatFree(Record(REQUEST_NAMES, RequestValues(r, authorization))) <==> FloatFreeOperation(r.operation)
  {
    var values := RequestValues(r, authorization);
    RecordFloatFree(REQUEST_NAMES, values);
    EarlyFieldsFloatFree(r, authorization);
    LateFieldsFloatFree(r, authorization);
    OperationFloatFree(r.operation);
    assert values[12] == OperationJson(r.operation);
    assert FloatFreeItems(values) <==> FloatFree(values[12]);
  }

  /** A request has no digest exactly when a `Prove` carries a float. */
  lemma OnlyFloatsHaveNoDigest(hash: Bytes -> Bytes, r: OperationRequest)
    ensures RequestDigest(hash, r).Some? <==> FloatFreeOperation(r.operation)
  {
    SigningDomainsPlain();
    UnsignedAuthorizationIs(r);
    RecordFloatFree(["client_key_id"], [Str(r.clientKeyId)]);
    RequestFloatFree(r, UnsignedAuthorization(r));
  }
}
