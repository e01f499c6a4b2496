/**
 The signed wire types, their JSON, and their digests. Binary fields are lowercase
 hex, 64-bit numbers decimal strings, enumerations words; a derivation item and an
 operation carry their kind beside their fields. JSON inside a `Prove` operation is
 the client's own.
 */
module Requests {
  import opened Basics
  import opened Hashing
  import opened Unicode
  import opened Json
  import opened Jcs
  import opened Encodings
  import opened Digest

  datatype Network = Devnet | Mainnet

  datatype OperationKind = Bootstrap | Decrypt | Derive | TransactionKeys | Prove

  datatype ClientGrant = ClientGrant(clientPublicKey: Bytes, allowedOperations: seq<OperationKind>)

  datatype WalletDescriptor = WalletDescriptor(
    version: nat, securityDomainId: Bytes, network: Network, turnkeyOrganizationId: Text,
    turnkeyWalletId: Text, address: Text, allowedClients: seq<ClientGrant>, expiresAtMs: nat,
    provisioningSignature: Bytes)

  datatype WalletGrant = WalletGrant(
    version: nat, descriptorDigest: Bytes, clientKeyId: Text, projectId: Text,
    issuedAtMs: nat, expiresAtMs: nat, signature: Bytes)

  datatype DecryptLabel = Transfer | RingDeposit

  datatype DecryptItem = DecryptItem(
    ciphertext: Bytes, viewingPublicKey: Bytes, transactionViewingPublicKey: Bytes,
    salt: Bytes, slotIndex: nat, lbl: DecryptLabel)

  datatype DeriveItem =
    | Nullifier(utxoHash: Bytes, blinding: Bytes)
    | MergeDummyNullifier(firstNullifier: Bytes, slotIndex: nat)
    | MergeOutputBlinding(firstNullifier: Bytes)
    | MergePrivateTxBlinding(firstNullifier: Bytes)
    | MergeOutputKey(firstNullifier: Bytes)

  datatype TransactionKeyItem = TransactionKeyItem(viewingPublicKey: Bytes, firstNullifier: Bytes)

  datatype ProverSealing = ProverSealing(target: Text, nonce: Bytes, attestation: Json, policy: Json)

  datatype Operation =
    | BootstrapOp
    | DecryptOp(decrypts: seq<DecryptItem>)
    | DeriveOp(derives: seq<DeriveItem>)
    | TransactionKeysOp(keys: seq<TransactionKeyItem>)
    | ProveOp(request: Json, prover: ProverSealing)

  datatype OperationRequest = OperationRequest(
    version: nat, requestId: Bytes, issuedAtMs: nat, expiresAtMs: nat, targetReleaseId: Text,
    targetManifestDigest: Bytes, targetExecutableDigest: Bytes, quorumKeyId: Text, quorumKeyEpoch: nat,
    walletDescriptor: WalletDescriptor, sealedSeed: Option<Bytes>, clientResponsePublicKey: Bytes,
    operation: Operation, clientKeyId: Text, signature: Bytes)

  // JSON forms.

  function NetworkName(n: Network): string { if n.Devnet? then "devnet" else "mainnet" }

  function KindName(k: OperationKind): string {
    match k
    case Bootstrap => "Bootstrap" case Decrypt => "Decrypt" case Derive => "Derive"
    case TransactionKeys => "TransactionKeys" case Prove => "Prove"
  }

  function KindsJson(kinds: seq<OperationKind>): (r: seq<Json>)
    ensures |r| == |kinds| && forall i :: 0 <= i < |kinds| ==> r[i] == Word(KindName(kinds[i]))
  {
    seq(|kinds|, i requires 0 <= i < |kinds| => Word(KindName(kinds[i])))
  }

  const CLIENT_GRANT_NAMES := ["client_public_key", "allowed_operations"]

  function ClientGrantJson(g: ClientGrant): Json {
    Record(CLIENT_GRANT_NAMES, [Hex(g.clientPublicKey), Arr(KindsJson(g.allowedOperations))])
  }

  function ClientGrantsJson(gs: seq<ClientGrant>): (r: seq<Json>)
    ensures |r| == |gs| && forall i :: 0 <= i < |gs| ==> r[i] == ClientGrantJson(gs[i])
  {
    seq(|gs|, i requires 0 <= i < |gs| => ClientGrantJson(gs[i]))
  }

  const DESCRIPTOR_NAMES := [
    "version", "security_domain_id", "network", "turnkey_organization_id", "turnkey_wallet_id",
    "address", "allowed_clients", "expires_at_ms", "provisioning_signature"]

  function DescriptorValues(d: WalletDescriptor): seq<Json> {
    [Num(d.version), Hex(d.securityDomainId), Word(NetworkName(d.network)), Str(d.turnkeyOrganizationId),
     Str(d.turnkeyWalletId), Str(d.address), Arr(ClientGrantsJson(d.allowedClients)),
     DecimalU64(d.expiresAtMs), Hex(d.provisioningSignature)]
  }

  function DescriptorJson(d: WalletDescriptor): Json { Record(DESCRIPTOR_NAMES, DescriptorValues(d)) }

  const BINDING_NAMES := [
    "network", "security_domain_id", "turnkey_organization_id", "turnkey_wallet_id", "address"]

  function BindingJson(d: WalletDescriptor): Json {
    Record(BINDING_NAMES, [
      Word(NetworkName(d.network)), Hex(d.securityDomainId), Str(d.turnkeyOrganizationId),
      Str(d.turnkeyWalletId), Str(d.address)])
  }

  const GRANT_NAMES := [
    "version", "descriptor_digest", "client_key_id", "project_id", "issued_at_ms", "expires_at_ms", "signature"]

  function GrantValues(g: WalletGrant): seq<Json> {
    [Num(g.version), Hex(g.descriptorDigest), Str(g.clientKeyId), Str(g.projectId),
     DecimalU64(g.issuedAtMs), DecimalU64(g.expiresAtMs), Hex(g.signature)]
  }

  const DECRYPT_ITEM_NAMES := [
    "ciphertext", "viewing_public_key", "transaction_viewing_public_key", "salt", "slot_index", "label"]

  function LabelName(l: DecryptLabel): string { if l.Transfer? then "Transfer" else "RingDeposit" }

  function DecryptItemJson(i: DecryptItem): Json {
    Record(DECRYPT_ITEM_NAMES, [
      Hex(i.ciphertext), Hex(i.viewingPublicKey), Hex(i.transactionViewingPublicKey), Hex(i.salt),
      DecimalU64(i.slotIndex), Word(LabelName(i.lbl))])
  }

  function DeriveNames(i: DeriveItem): seq<string> {
    match i
    case Nullifier(_, _) => ["kind", "utxo_hash", "blinding"]
    case MergeDummyNullifier(_, _) => ["kind", "first_nullifier", "slot_index"]
    case _ => ["kind", "first_nullifier"]
  }

  function DeriveTag(i: DeriveItem): string {
    match i
    case Nullifier(_, _) => "Nullifier"
    case MergeDummyNullifier(_, _) => "MergeDummyNullifier"
    case MergeOutputBlinding(_) => "MergeOutputBlinding"
    case MergePrivateTxBlinding(_) => "MergePrivateTxBlinding"
    case MergeOutputKey(_) => "MergeOutputKey"
  }

  function DeriveValues(i: DeriveItem): (r: seq<Json>)
    ensures |r| == |DeriveNames(i)|
  {
    match i
    case Nullifier(utxoHash, blinding) => [Word(DeriveTag(i)), Hex(utxoHash), Hex(blinding)]
    case MergeDummyNullifier(first, slot) => [Word(DeriveTag(i)), Hex(first), DecimalU64(slot)]
    case _ => [Word(DeriveTag(i)), Hex(i.firstNullifier)]
  }

  function DeriveItemJson(i: DeriveItem): Json { Record(DeriveNames(i), DeriveValues(i)) }

  const KEY_ITEM_NAMES := ["viewing_public_key", "first_nullifier"]

  function KeyItemJson(i: TransactionKeyItem): Json {
    Record(KEY_ITEM_NAMES, [Hex(i.viewingPublicKey), Hex(i.firstNullifier)])
  }

  const SEALING_NAMES := ["target", "nonce", "attestation", "policy"]

  function SealingJson(s: ProverSealing): Json {
    Record(SEALING_NAMES, [Str(s.target), Hex(s.nonce), s.attestation, s.policy])
  }

  function DecryptsJson(items: seq<DecryptItem>): (r: seq<Json>)
    ensures |r| == |items| && forall i :: 0 <= i < |items| ==> r[i] == DecryptItemJson(items[i])
  {
    seq(|items|, i requires 0 <= i < |items| => DecryptItemJson(items[i]))
  }

  function DerivesJson(items: seq<DeriveItem>): (r: seq<Json>)
    ensures |r| == |items| && forall i :: 0 <= i < |items| ==> r[i] == DeriveItemJson(items[i])
  {
    seq(|items|, i requires 0 <= i < |items| => DeriveItemJson(items[i]))
  }

  function KeysJson(items: seq<TransactionKeyItem>): (r: seq<Json>)
    ensures |r| == |items| && forall i :: 0 <= i < |items| ==> r[i] == KeyItemJson(items[i])
  {
    seq(|items|, i requires 0 <= i < |items| => KeyItemJson(items[i]))
  }

  function OperationNames(op: Operation): seq<string> {
    match op
    case BootstrapOp => ["type"]
    case ProveOp(_, _) => ["type", "request", "prover"]
    case _ => ["type", "items"]
  }

  function OperationKindOf(op: Operation): OperationKind {
    match op
    case BootstrapOp => Bootstrap case DecryptOp(_) => Decrypt case DeriveOp(_) => Derive
    case TransactionKeysOp(_) => TransactionKeys case ProveOp(_, _) => Prove
  }

  function OperationValues(op: Operation): (r: seq<Json>)
    ensures |r| == |OperationNames(op)| && r[0] == Word(KindName(OperationKindOf(op)))
  {
    match op
    case BootstrapOp => [Word("Bootstrap")]
    case DecryptOp(items) => [Word("Decrypt"), Arr(DecryptsJson(items))]
    case DeriveOp(items) => [Word("Derive"), Arr(DerivesJson(items))]
    case TransactionKeysOp(items) => [Word("TransactionKeys"), Arr(KeysJson(items))]
    case ProveOp(request, prover) => [Word("Prove"), request, SealingJson(prover)]
  }

  function OperationJson(op: Operation): Json { Record(OperationNames(op), OperationValues(op)) }

  const REQUEST_NAMES := [
    "version", "request_id", "issued_at_ms", "expires_at_ms", "target_release_id",
    "target_manifest_digest", "target_executable_digest", "quorum_key_id", "quorum_key_epoch",
    "wallet_descriptor", "sealed_seed", "client_response_public_key", "operation", "authorization"]

  const AUTHORIZATION_NAMES := ["client_key_id", "signature"]

  /** The request's fields with `authorization` as given. */
  function RequestValues(r: OperationRequest, authorization: Json): seq<Json> {
    [Num(r.version), Hex(r.requestId), DecimalU64(r.issuedAtMs), DecimalU64(r.expiresAtMs),
     Str(r.targetReleaseId), Hex(r.targetManifestDigest), Hex(r.targetExecutableDigest),
     Str(r.quorumKeyId), DecimalU64(r.quorumKeyEpoch), DescriptorJson(r.walletDescriptor),
     OptionalHex(r.sealedSeed), Hex(r.clientResponsePublicKey), OperationJson(r.operation), authorization]
  }

  function Authorization(r: OperationRequest): seq<Member> {
    Fields(AUTHORIZATION_NAMES, [Str(r.clientKeyId), Hex(r.signature)])
  }

  function RequestJson(r: OperationRequest): Json {
    Record(REQUEST_NAMES, RequestValues(r, Obj(Authorization(r))))
  }

  // Digests.

  /** Refuses a value with a float, as canonical JSON does. */
  function DigestOf(hash: Bytes -> Bytes, domain: string, v: Json): Option<Bytes>
    requires Plain(domain)
  {
    if FloatFree(v) then Some(DomainSeparatedHash(hash, domain, Utf8(Canonical(v)))) else None
  }

  function RequestDigest(hash: Bytes -> Bytes, r: OperationRequest): Option<Bytes> {
    SigningDomainsPlain();
    var authorization := Obj(Remove(Authorization(r), Name("signature")));
    DigestOf(hash, REQUEST_DIGEST_DOMAIN, Record(REQUEST_NAMES, RequestValues(r, authorization)))
  }

  function DescriptorDigest(hash: Bytes -> Bytes, d: WalletDescriptor): Option<Bytes> {
    SigningDomainsPlain();
    var unsigned := Remove(Fields(DESCRIPTOR_NAMES, DescriptorValues(d)), Name("provisioning_signature"));
    DigestOf(hash, PROVISIONING_AUTH_DOMAIN, Obj(unsigned))
  }

  function WalletBindingDigest(hash: Bytes -> Bytes, d: WalletDescriptor): Option<Bytes> {
    IdentityDomainsPlain();
    DigestOf(hash, WALLET_BINDING_DOMAIN, BindingJson(d))
  }

  function WalletGrantDigest(hash: Bytes -> Bytes, g: WalletGrant): Option<Bytes> {
    SigningDomainsPlain();
    DigestOf(hash, WALLET_GRANT_DOMAIN, Obj(Remove(Fields(GRANT_NAMES, GrantValues(g)), Name("signature"))))
  }
}
