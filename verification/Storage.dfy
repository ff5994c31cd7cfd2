/**
 The persisted form of objects and tokens, and the conversions in both directions.
 The disk holds one `StoredState`; saving and loading it is the identity.
 */
module Storage {
  import opened Types
  import opened Objects
  import opened Tokens

  datatype StoredKeyType =
    | StoredRsaPrivate | StoredRsaPublic
    | StoredEcPrivate | StoredEcPublic
    | StoredAesSecret
    | StoredEdPrivate | StoredEdPublic
    | StoredChaCha20Secret
    | StoredGenericSecret

  function ToStoredKeyType(k: KeyType): StoredKeyType
    requires k != Profile
  {
    match k
    case RsaPrivate => StoredRsaPrivate
    case RsaPublic => StoredRsaPublic
    case EcPrivate => StoredEcPrivate
    case EcPublic => StoredEcPublic
    case AesSecret => StoredAesSecret
    case EdPrivate => StoredEdPrivate
    case EdPublic => StoredEdPublic
    case ChaCha20Secret => StoredChaCha20Secret
    case GenericSecret => StoredGenericSecret
  }

  function FromStoredKeyType(k: StoredKeyType): KeyType {
    match k
    case StoredRsaPrivate => RsaPrivate
    case StoredRsaPublic => RsaPublic
    case StoredEcPrivate => EcPrivate
    case StoredEcPublic => EcPublic
    case StoredAesSecret => AesSecret
    case StoredEdPrivate => EdPrivate
    case StoredEdPublic => EdPublic
    case StoredChaCha20Secret => ChaCha20Secret
    case StoredGenericSecret => GenericSecret
  }

  datatype StoredObject = StoredObject(
    handle: ObjectHandle, slot: SlotId, keyType: StoredKeyType, keyDer: Bytes, attrs: Attributes)

  function ToStored(o: KeyObject): StoredObject
    requires o.keyType != Profile
  {
    StoredObject(o.handle, o.slot, ToStoredKeyType(o.keyType), o.keyRef, o.attrs)
  }

  function Restore(s: StoredObject): KeyObject {
    NewKeyObject(s.handle, s.slot, FromStoredKeyType(s.keyType), s.keyDer, s.attrs)
  }

  /** What a reload keeps of an object: the struct-only fields go back to their defaults. */
  function Reloaded(o: KeyObject): KeyObject {
    o.(creatingSession := None, alwaysAuthenticate := false, local := false,
       alwaysSensitive := false, neverExtractable := false, keyGenMechanism := CK_UNAVAILABLE_INFORMATION)
  }

  /** Handle, slot, key type, key bytes and every attribute survive storing and restoring. */
  lemma ObjectRoundTrip(o: KeyObject)
    requires Persistable(o)
    ensures Restore(ToStored(o)) == Reloaded(o)
  {
  }

  datatype StoredPin = StoredPin(phc: Option<HashedPin>)

  /** `soPlain`, `userPlain` and `initialised` are read from older files and never written. */
  datatype StoredToken = StoredToken(
    tokenLabel: Bytes,
    state: string,
    initialised: Option<bool>,
    soPlain: Option<Bytes>,
    userPlain: Option<Bytes>,
    soHash: Option<StoredPin>,
    userHash: Option<StoredPin>,
    soFailures: nat,
    userFailures: nat,
    loginRequired: bool,
    serial: Bytes)

  function StateName(s: TokenState): string {
    match s
    case Reset => "reset"
    case ReadWrite => "read_write"
    case ReadOnly => "read_only"
  }

  function StorePin(p: Option<HashedPin>): Option<StoredPin> {
    if p.Some? then Some(StoredPin(p)) else None
  }

  function ToStoredToken(t: TokenData): StoredToken {
    StoredToken(t.tokenLabel, StateName(t.state), None, None, None, StorePin(t.soPin), StorePin(t.userPin),
                t.soFailures, t.userFailures, t.loginRequired, t.serial)
  }

  function LoadPin(hash: Option<StoredPin>, plain: Option<Bytes>): Option<HashedPin> {
    if hash.Some? && hash.value.phc.Some? then hash.value.phc
    else if plain.Some? then Some(HashedPin(plain.value))
    else None
  }

  /** `apply_to`: overwrite a token's fields from the stored form. */
  function ApplyTo(s: StoredToken, t: TokenData): TokenData {
    t.(tokenLabel := Padded(s.tokenLabel, LABEL_LEN),
       state := if s.state == "reset" then Reset
                else if s.state == "read_only" then ReadOnly
                else if s.initialised == Some(false) then Reset
                else ReadWrite,
       soPin := LoadPin(s.soHash, s.soPlain),
       userPin := LoadPin(s.userHash, s.userPlain),
       soFailures := s.soFailures,
       userFailures := s.userFailures,
       loginRequired := s.loginRequired,
       serial := Padded(s.serial, SERIAL_LEN))
  }

  /** `replace_token`: stored fields over a fresh token. */
  function RestoreToken(s: StoredToken, slot: SlotId): TokenData {
    ApplyTo(s, NewToken(slot))
  }

  /** Fixed-size fields have their sizes and the PIN length policy is the built-in one. */
  predicate StorableToken(t: TokenData, slot: SlotId) {
    && t.slot == slot && |t.tokenLabel| == LABEL_LEN && |t.serial| == SERIAL_LEN
    && t.minPinLen == MIN_PIN_LEN && t.maxPinLen == MAX_PIN_LEN
  }

  /** A token comes back field for field, exactly when its sizes and policy are the built-in ones. */
  lemma TokenRoundTrip(t: TokenData, slot: SlotId)
    ensures RestoreToken(ToStoredToken(t), slot) == t <==> StorableToken(t, slot)
  {
  }

  datatype StoredState = StoredState(
    tokens: map<SlotId, StoredToken>,
    legacyToken: Option<StoredToken>,
    objects: map<ObjectHandle, StoredObject>,
    nextHandle: nat)

  /** The objects of a store as they are written to disk. */
  function DiskImage(objects: ObjectMap): map<ObjectHandle, StoredObject> {
    map h | h in objects && Persistable(objects[h]) :: ToStored(objects[h])
  }
}
