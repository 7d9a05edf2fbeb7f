/**
 Ledger keys, entries and snapshots, and what is known about a key.

 Only the parts of the XDR types that the capture, fork and digest code looks at
 are spelled out; everything else is carried as raw bytes.
 */
module Ledger {
  import opened Wrappers
  import opened Bytes

  /** The canonical XDR of a ledger key, by which every `BTreeMap` is keyed. */
  type KeyId = Vec8

  datatype ScAddress =
    | AccountAddress(account: Digest)
    | ContractAddress(contract: Digest)
    | OtherAddress(raw: Vec8)

  datatype Executable =
    | Wasm(hash: Digest)
    | ExternalRef(owner: ScAddress, tag: Vec8)
    | StellarAsset

  datatype ScVal =
    | LedgerKeyContractInstance
    | LedgerKeyNonce(nonce: int)
    | ExecutableTag(tag: Vec8)
    | ContractInstance(executable: Executable, storage: Vec8)
    | BytesVal(bytes: Vec8)
    | OtherVal(raw: Vec8)

  datatype Durability = Temporary | Persistent

  datatype ConfigSettingId = StateArchival | OtherSetting(id: nat)

  datatype LedgerKey =
    | Account(accountId: Digest)
    | Trustline(accountId: Digest, asset: Vec8)
    | ContractData(contract: ScAddress, key: ScVal, durability: Durability)
    | ContractCode(hash: Digest)
    | ConfigSetting(setting: ConfigSettingId)
    | OtherKey(raw: Vec8)

  datatype ArchivalSettings = ArchivalSettings(
    maxEntryTtl: u32, minTemporaryTtl: u32, minPersistentTtl: u32, rest: Vec8)

  datatype EntryData =
    | AccountEntry(accountId: Digest, body: Vec8)
    | TrustlineEntry(accountId: Digest, asset: Vec8, body: Vec8)
    | ContractDataEntry(contract: ScAddress, key: ScVal, durability: Durability, val: ScVal)
    | ContractCodeEntry(hash: Digest, code: Vec8)
    | StateArchivalEntry(settings: ArchivalSettings)
    | OtherConfigEntry(id: nat, body: Vec8)
    | OtherEntry(keyRaw: Vec8, body: Vec8)

  datatype LedgerEntry = LedgerEntry(lastModified: u32, data: EntryData, ext: Vec8) {
    /** `LedgerEntry::to_key`. */
    function ToKey(): LedgerKey {
      match data
      case AccountEntry(accountId, _) => Account(accountId)
      case TrustlineEntry(accountId, asset, _) => Trustline(accountId, asset)
      case ContractDataEntry(contract, key, durability, _) => ContractData(contract, key, durability)
      case ContractCodeEntry(hash, _) => ContractCode(hash)
      case StateArchivalEntry(_) => ConfigSetting(StateArchival)
      case OtherConfigEntry(id, _) => ConfigSetting(OtherSetting(id))
      case OtherEntry(keyRaw, _) => OtherKey(keyRaw)
    }
  }

  /**
   An encoder and a decoder with decode after encode being the identity on what
   can be encoded. XDR is taken to be some such pair: encoding can fail, and
   decoding can accept bytes that no encoder writes.
   */
  datatype Codec<!T> = Codec(encode: T -> Option<Vec8>, decode: Vec8 -> Option<T>)

  ghost predicate RoundTrips<T(!new)>(c: Codec<T>) {
    forall value: T, xdr: Vec8 :: c.encode(value) == Some(xdr) ==> c.decode(xdr) == Some(value)
  }

  type KeyCodec = c: Codec<LedgerKey> | RoundTrips(c) witness Codec(k => None, b => None)
  type EntryCodec = c: Codec<LedgerEntry> | RoundTrips(c) witness Codec(e => None, b => None)

  const KEY_CODEC: KeyCodec
  const ENTRY_CODEC: EntryCodec

  /** `key_id`: the canonical XDR of a key, if it can be encoded. */
  function KeyXdr(key: LedgerKey): Option<KeyId> {
    (KEY_CODEC.encode)(key)
  }

  function KeyFromXdr(xdr: Vec8): Option<LedgerKey> {
    (KEY_CODEC.decode)(xdr)
  }

  function EntryXdr(entry: LedgerEntry): Option<Vec8> {
    (ENTRY_CODEC.encode)(entry)
  }

  lemma KeyXdrRoundTrip(key: LedgerKey, id: KeyId)
    requires KeyXdr(key) == Some(id)
    ensures KeyFromXdr(id) == Some(key)
  {
    assert KEY_CODEC.encode(key) == Some(id);
  }

  lemma KeyXdrInjective(a: LedgerKey, b: LedgerKey)
    requires KeyXdr(a).Some? && KeyXdr(a) == KeyXdr(b)
    ensures a == b
  {
    KeyXdrRoundTrip(a, KeyXdr(a).value);
    KeyXdrRoundTrip(b, KeyXdr(b).value);
  }

  lemma EntryXdrInjective(a: LedgerEntry, b: LedgerEntry)
    requires EntryXdr(a).Some? && EntryXdr(a) == EntryXdr(b)
    ensures a == b
  {
    assert ENTRY_CODEC.decode(EntryXdr(a).value) == Some(a);
    assert ENTRY_CODEC.decode(EntryXdr(b).value) == Some(b);
  }

  /** What is known about a covered key; a key without a state is Unknown. */
  datatype LookupState = Present(entry: LedgerEntry, liveUntil: Option<u32>) | Absent

  type Coverage = map<KeyId, LookupState>

  /** A value as the Host sees it: the entry with its live-until ledger, or none. */
  datatype LedgerValue = LedgerValue(entry: LedgerEntry, liveUntil: Option<u32>)

  function AsState(value: Option<LedgerValue>): LookupState {
    match value
    case Some(v) => Present(v.entry, v.liveUntil)
    case None => Absent
  }

  function AsValue(state: LookupState): Option<LedgerValue> {
    match state
    case Present(entry, liveUntil) => Some(LedgerValue(entry, liveUntil))
    case Absent => None
  }

  datatype SnapshotEntry = SnapshotEntry(key: LedgerKey, value: LedgerValue)

  /** `LedgerInfo`: the ledger header fields the Host executes with. */
  datatype LedgerInfo = LedgerInfo(
    protocolVersion: u32, sequenceNumber: u32, timestamp: u64, networkId: Digest, baseReserve: u32,
    minPersistentEntryTtl: u32, minTempEntryTtl: u32, maxEntryTtl: u32)

  datatype LedgerSnapshot = LedgerSnapshot(info: LedgerInfo, entries: seq<SnapshotEntry>)

  const STATE_ARCHIVAL_KEY := ConfigSetting(StateArchival)

  function CodeKey(hash: Digest): LedgerKey {
    ContractCode(hash)
  }

  function InstanceKey(contract: ScAddress): LedgerKey {
    ContractData(contract, LedgerKeyContractInstance, Persistent)
  }

  predicate IsNonceKey(key: LedgerKey) {
    key.ContractData? && key.durability == Temporary && key.key.LedgerKeyNonce?
  }

  /** Every id in `keys` is the XDR of the key it maps to. */
  predicate WellKeyed(keys: map<KeyId, LedgerKey>) {
    forall id | id in keys :: KeyXdr(keys[id]) == Some(id)
  }
}
