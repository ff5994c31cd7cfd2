/**
 Object descriptors of the in-memory object store and the decisions taken on one
 descriptor: token/session, private, template matching.
 */
module Objects {
  import opened Types

  datatype KeyType =
    | RsaPrivate | RsaPublic
    | EcPrivate | EcPublic
    | AesSecret | GenericSecret
    | EdPrivate | EdPublic
    | ChaCha20Secret
    | Profile

  datatype KeyObject = KeyObject(
    handle: ObjectHandle,
    slot: SlotId,
    keyType: KeyType,
    keyRef: Bytes,
    attrs: Attributes,
    creatingSession: Option<SessionHandle>,
    alwaysAuthenticate: bool,
    local: bool,
    alwaysSensitive: bool,
    neverExtractable: bool,
    keyGenMechanism: nat)

  type ObjectMap = map<ObjectHandle, KeyObject>

  /** `KeyObject::new`: `CKA_TOKEN` defaults to false, every struct field to its default. */
  function NewKeyObject(handle: ObjectHandle, slot: SlotId, keyType: KeyType, keyRef: Bytes,
                        attrs: Attributes): KeyObject {
    KeyObject(handle, slot, keyType, keyRef, WithDefault(attrs, CKA_TOKEN, [CK_FALSE]),
              None, false, false, false, false, CK_UNAVAILABLE_INFORMATION)
  }

  predicate IsTokenObject(o: KeyObject) {
    AttrTrue(o.attrs, CKA_TOKEN)
  }

  predicate IsSessionObject(o: KeyObject) {
    !IsTokenObject(o)
  }

  predicate IsPrivateObject(o: KeyObject) {
    AttrTrue(o.attrs, CKA_PRIVATE)
  }

  /** Written to disk: a token object that is not a profile. */
  predicate Persistable(o: KeyObject) {
    IsTokenObject(o) && o.keyType != Profile
  }

  predicate MatchesTemplate(o: KeyObject, template: seq<(AttributeType, Bytes)>) {
    forall i :: 0 <= i < |template| ==> Lookup(o.attrs, template[i].0) == Some(template[i].1)
  }

  /** The handles a search on `slot` may return. */
  predicate Visible(o: KeyObject, slot: SlotId, template: seq<(AttributeType, Bytes)>, loggedIn: bool) {
    o.slot == slot && MatchesTemplate(o, template) && (loggedIn || !IsPrivateObject(o))
  }

  function VisibleMatches(objects: ObjectMap, slot: SlotId, template: seq<(AttributeType, Bytes)>,
                          loggedIn: bool): set<ObjectHandle> {
    set h | h in objects && Visible(objects[h], slot, template, loggedIn)
  }

  predicate NoDuplicates(s: seq<ObjectHandle>) {
    forall i, j :: 0 <= i < j < |s| ==> s[i] != s[j]
  }

  /** `s` lists exactly the members of `xs`, each once, in some order. */
  ghost predicate Enumerates(s: seq<ObjectHandle>, xs: set<ObjectHandle>) {
    NoDuplicates(s) && (forall x :: x in s <==> x in xs)
  }

  function ProfileObject(handle: ObjectHandle, slot: SlotId): (o: KeyObject)
    ensures IsTokenObject(o) && !Persistable(o) && !IsPrivateObject(o)
    ensures o.handle == handle && o.slot == slot && o.creatingSession == None
  {
    NewKeyObject(handle, slot, Profile, [],
                 map[CKA_CLASS := UlongBytes(CKO_PROFILE),
                     CKA_TOKEN := [CK_TRUE],
                     CKA_PRIVATE := [CK_FALSE],
                     CKA_DESTROYABLE := [CK_FALSE],
                     CKA_PROFILE_ID := UlongBytes(CKP_BASELINE_PROVIDER)])
  }
}
