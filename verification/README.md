# The PKCS#11 software token, modelled and proved

This project models the PKCS#11 v3.0 provider in `score/cryptoki/pkcs11`: one
process-wide machine made of an engine and slot registry, a session table with its
operation contexts, per-slot tokens with their PIN counters, an object store with
attribute maps and history flags, and a persisted image on disk. About fifty `C_*`
entry points are its steps; losing the process's memory is a step too. What is proved
is mostly about whole runs: what every reachable state satisfies, what a restart
brings back, what a chain of copies can never undo, how often a one-shot
authentication can be used, what a stream delivers however it was cut up, and why the
five process-wide locks cannot deadlock.

`dafny verify dfyconfig.toml` checks everything.

## How it is laid out

- `Types`, `Objects`, `Storage`, `Backend`: values. Return codes, descriptors, the
  stored form, and the crypto engine as a record of functions. Randomised primitives
  take their random bytes as arguments; the laws the engine must satisfy
  (`SignatureLaw`, `RsaLengthLaw`, `AeadLaw`, `WrapLaw`) are hypotheses of the
  theorems that need them, and PIN verification is equality.
- `AttributePolicy`, `TemplateWrites`, `Tokens`, `Sessions`, `Registry`, `ObjectStore`:
  each store with its specification functions, what they keep, and the mutable class or
  loop that the source has, proved against them. Hash maps are iterated in arbitrary
  order.
- `Operations`: the context operations of one session. `Machine`: every entry point as
  a step, runs as sequences of calls.
- `Provider`: the calls as imperative code over the mutable stores. Those that go
  through several stores or sections are written out, those that are one closure on a
  session share `InSession`; `Run` performs any sequence of calls and is proved to be a
  legal run of the machine with the same answers.
- `Invariants`, `Persistence`, `Recovery`, `Saving`, `Lineage`, `Sealing`, `Tickets`,
  `Streams`, `Search`, `PinRuns`, `KeyTransport`, `AttributeQuery`: the theorems.
- `LoginSteps` and `Locking`: two smaller step models at the grain of single lock
  sections, for what whole-call steps cannot show.

Calls are atomic in `Machine`; `Fits` bounds the handles a run may draw, because the
counters are 64 bits wide and wrap (`Bump`). `Legal` says that a search snapshot lists
the matching objects in some order. `DiskOk` is what a run asks of the file it starts
from: keys equal handles, handles below the counter, `CKA_TOKEN` true, and counters
within their range.

## Where the promised property needs a condition

The code decides, and the exact condition is proved:

- The ratchets compare the first byte with exactly 0 or 1, so they hold for well-formed
  booleans and only for those, an empty `CKA_EXTRACTABLE` counting as false
  (`SensitiveRatchetExact`, `ExtractableRatchetExact`,
  `MalformedBooleanBreaksRatchet`).
- `CKA_TOKEN` may be rewritten and a refused `C_SetAttributeValue` keeps its first
  writes without saving them, so ownership and the disk image are sound after a step
  exactly when the call was clean. Cleanliness is read off the object and the template:
  where the first refused entry is, and what the entries before it leave
  (`StepSoundExact`, `CleanTemplateExact`, `FlippingTokenIsUnclean`,
  `PartialWriteIsUnclean`).
- For the same reason a crash can undo a lock that a write put on in memory only, refused
  half way or turning the key into a session object (`CrashLosesLockExact`,
  `RefusedSealIsLost`, `DestroyedSealComesBack`). Lineages of locked keys stay locked
  exactly when memory is lost only once the locks are on disk: the stored copies had them
  at the start, or a call has saved since (`LineageLockedExact`, `StoredLocksLast`).
- A locked user PIN stays locked until `C_InitPIN` or `C_InitToken`, through shutdowns and
  restarts of its registered slot, but failures are not saved by the refused call: a crash
  goes back to the counter on disk, so the lock survives exactly when a saving call came
  after the last failure (`LockedThroughoutExact`, `CrashKeepsLockExact`,
  `SavedLockSurvives`, `CrashForgetsFailures`). Context-specific logins do not look at the
  counter at all (`ContextLoginExact`, `LockDoesNotLogOut`).
- Start-up skips objects of slots that are not registered; the disk is then current
  exactly when all of them are (`StartUpSoundExact`).
- `C_DeriveKey` copies the base key's history flags whatever the template says; they are
  truthful exactly under `DeriveSafe` (`DerivedFlagsExact`, `DerivedFlagsCanLie`).
- `C_Login` checks for read-only sessions and logs in under separate lock sections, so at
  that grain the SO rule holds exactly when no SO login lands beside a reader
  (`SoRuleExact`, `CheckThenLoginCanRace`).
- The attribute query's return code depends on the order of the template exactly when two
  entries fail with different engine errors (`OrderIrrelevantExact`, `OrderCanMatter`).
  Only an engine with two failure codes for one object shows it: what the OpenSSL
  engine's attribute functions fail with depends on the key, not on the attribute, apart
  from the sensitive and invalid-type answers (`OneCodeOrderIrrelevant`).
- An RSA signature is accepted exactly when the verifying key's `CKA_MODULUS` has the
  length of its modulus, which generated keys keep (`SignedIsAccepted`,
  `GeneratedModulusFits`).
- An unwrapped key comes back exactly when it has an AES key size
  (`WrappedKeyComesBack`).

Two behaviours a reader may not expect, modelled as the code has them: `C_SetPIN`
announces one counted verification of the old PIN, but a wrong old PIN as the user is
counted twice because the new PIN is tried as well (`CounterCountsFailures`); and copies
and reloaded keys lose `CKA_ALWAYS_AUTHENTICATE`, which lives only in a struct field
(`CopyOf`, `ObjectRoundTrip`).

## Model

| member | source | states |
|---|---|---|
| `Invariants.RunKeepsInv` | score/cryptoki/pkcs11/object_store.rs:152-156 | Below 2^64 draws, every state reachable from a process start over a well-formed disk, through any calls, crashes and restarts, satisfies the whole invariant: object and session handles equal their keys, are nonzero and below the counter, their slots are registered, login state is slot-wide, the SO meets no read-only session, every token obeys the PIN automaton, the disk is well formed and its counter is not ahead |
| `Invariants.StepKeepsInv` | score/cryptoki/pkcs11/object_store.rs:164-180 | One step of any entry point, a shutdown, a start-up or a crash keeps that invariant and draws no more handles than accounted for |
| `Invariants.NextHandleIsFresh` | score/cryptoki/pkcs11/object_store.rs:154-156 | The next object handle and the next session handle name nothing stored, so no insertion overwrites |
| `Invariants.SnapshotObjects` | score/cryptoki/pkcs11/object_store.rs:382-413 | Because every stored slot is registered, a save skips no token object but profiles |
| `Invariants.SnapshotTokens` | score/cryptoki/pkcs11/storage/models.rs:144-214 | The token of every registered slot is saved so that restoring it gives it back field for field |
| `Invariants.LoadOk` | score/cryptoki/pkcs11/object_store.rs:423-446 | A reload that skips objects of unregistered slots still leaves every handle nonzero and below the recomputed counter, which is the saved one |
| `Invariants.StartKeepsInv` | score/cryptoki/pkcs11/ffi_api_core/lifecycle_and_slot_token.rs:55-81 | Start-up keeps the invariant and only adds profile objects under fresh handles to what was loaded |
| `Invariants.ReachKeepsInv` | score/cryptoki/pkcs11/object_store.rs:152-180 | The invariant also holds along every run from any state that has it |
| `Recovery.RunSound` | score/cryptoki/pkcs11/object_store.rs:164-180 | Crash consistency: at every call boundary of every clean run, with crashes and restarts anywhere, the disk holds exactly the non-profile token objects in memory, and every session object is owned by an open session of its slot |
| `Recovery.StepSoundExact` | score/cryptoki/pkcs11/object_store.rs:382-413 | From a sound state a step ends in a sound state if and only if the call was clean, a condition on the object and the template or on the slot count alone; no other call, crash or shutdown included, can break it |
| `Persistence.SetAttributeSoundExact` | score/cryptoki/pkcs11/ffi_api_core/keys_objects_attributes_find.rs:483-518 | A write leaves ownership and disk image sound exactly when its template is clean for the object |
| `TemplateWrites.ApplyTemplateExact` | score/cryptoki/pkcs11/ffi_api_core/keys_objects_attributes_find.rs:496-513 | The write loop applies exactly the entries before the first one that is immutable or turns back a ratchet from its value by then: it succeeds if and only if there is none, and every attribute ends with its last value before that |
| `TemplateWrites.CleanTemplateExact` | score/cryptoki/pkcs11/ffi_api_core/keys_objects_attributes_find.rs:496-517 | A template is clean, judged on object and template, exactly when its effect keeps the token/session kind and leaves no unsaved change on a persisted object |
| `TemplateWrites.UntouchedTokenIsClean` | score/cryptoki/pkcs11/ffi_api_core/keys_objects_attributes_find.rs:496-513 | A template that leaves `CKA_TOKEN` alone and has no refused entry, or meets an object that is not persisted, is clean |
| `TemplateWrites.FlippingTokenIsUnclean` | score/cryptoki/pkcs11/attribute_policy.rs:67-75 | `CKA_TOKEN` is not protected: for every object the write that flips it is accepted and not clean |
| `TemplateWrites.PartialWriteIsUnclean` | score/cryptoki/pkcs11/ffi_api_core/keys_objects_attributes_find.rs:496-517 | A refused template keeps the writes before the refusal and does not save them, so it is not clean on persisted objects |
| `Persistence.StartUpSoundExact` | score/cryptoki/pkcs11/object_store.rs:423-457 | After start-up the disk is current exactly when every stored slot was registered; nothing loaded is an orphan |
| `Persistence.RunningStepSound` | score/cryptoki/pkcs11/object_store.rs:351-370 | Every other entry point keeps ownership and the disk image sound |
| `Recovery.CrashThenInitialize` | score/cryptoki/pkcs11/object_store.rs:423-457 | Losing memory at a sound call boundary and initialising again restores exactly the persisted objects (handle, slot, key type, key bytes, attributes) and one fresh profile per slot, and nothing else |
| `Recovery.FinalizeThenInitialize` | score/cryptoki/pkcs11/mod.rs:53-64 | Shutting down and initialising again restores the same objects whether or not the disk was current before, and every registered token unchanged: label, state, PINs, counters |
| `Storage.ObjectRoundTrip` | score/cryptoki/pkcs11/storage/models.rs:79-105 | Storing and restoring a token object keeps handle, slot, key type, key bytes and attributes; the struct-only fields go back to their defaults |
| `Storage.TokenRoundTrip` | score/cryptoki/pkcs11/storage/models.rs:144-214 | A token survives storing and restoring exactly when its fixed-size fields have their sizes and its PIN policy is the built-in one |
| `Recovery.CloseRemovesExactly` | score/cryptoki/pkcs11/ffi_api_core/session_and_login.rs:117-124 | `C_CloseSession` removes exactly the session objects of that session, no token object, and alters nothing that stays |
| `Recovery.InitTokenClearsTokenObjects` | score/cryptoki/pkcs11/ffi_api_core/lifecycle_and_slot_token.rs:464-486 | `C_InitToken` clears exactly the slot, only token objects are there to clear, and a refusal removes nothing |
| `Sealing.LineageLockedExact` | score/cryptoki/pkcs11/attribute_policy.rs:48-75 | Ratchet over whole lineages, exact: a sensitive, or explicitly unextractable, secret or private key and every copy of a copy stay so at every later call boundary, in memory, on disk and back in memory, if and only if memory is lost only once the stored copies were locked at the start or some call has saved since; and the stored copies are all locked exactly then. A member counts while memory or the disk has it, so one destroyed, skipped at start-up or reloaded is still covered; members see well-formed booleans, other objects may be treated in any way |
| `Sealing.StoredLocksLast` | score/cryptoki/pkcs11/object_store.rs:382-413 | Once the stored copies are locked too, no run unlocks a member in memory or on disk, wherever it crashes |
| `Sealing.StepLocksExact` | score/cryptoki/pkcs11/object_store.rs:423-457 | One step keeps every lock of the lineage, except that a crash keeps them exactly when the stored copies have them |
| `Sealing.StepDiskExact` | score/cryptoki/pkcs11/object_store.rs:382-413 | The stored copies of a locked lineage are locked after a call exactly when they were before or the call saved |
| `Sealing.DestroyedSealComesBack` | score/cryptoki/pkcs11/ffi_api_core/keys_objects_attributes_find.rs:496-518 | A run that the condition shuts out: an accepted write seals a stored key and makes it a session object, the key is destroyed without a save, memory is lost, and the key is back unsealed |
| `AttributeQuery.LineageNeverYields` | score/cryptoki/pkcs11/ffi_api_core/keys_objects_attributes_find.rs:400-477 | Over whole runs no member of a locked lineage yields a secret attribute to a query, its buffer stays untouched, and no member of an unextractable lineage is delivered by `C_WrapKey`, under the same condition on crashes |
| `Sealing.CrashLosesLockExact` | score/cryptoki/pkcs11/ffi_api_core/keys_objects_attributes_find.rs:496-517 | When a crash loses the lock of one write: the object being stored as it is, memory has the lock afterwards and the disk does not exactly when the object was unlocked, the entries before the first refused one lock it, and an entry is refused or the object ends as a session object; all read off object and template |
| `Sealing.PutsLockExact` | score/cryptoki/pkcs11/attribute_policy.rs:48-75 | A template locks an object exactly when the class is secret or private and the last value before the first refused entry is the locking one |
| `Sealing.RefusedSealIsLost` | score/cryptoki/pkcs11/attribute_policy.rs:67-75 | Such a write: `CKA_SENSITIVE` true followed by an immutable entry is refused, seals the key in memory and leaves the stored copy unsealed |
| `Sealing.CopyStaysLocked` | score/cryptoki/pkcs11/ffi_api_crypto/misc_v240.rs:58-92 | Copy overrides the policy lets through cannot undo either lock or change the class |
| `Lineage.ImmutableSinceCreation` | score/cryptoki/pkcs11/attribute_policy.rs:67-75 | As long as an object is there, no call changes its key, key type, slot or an immutable attribute, whatever the templates say |
| `Lineage.ObjectsComeFrom` | score/cryptoki/pkcs11/object_store.rs:164-180 | After any call every object was there unchanged, was written by this very call, or was created by it; copies and derived keys stand in a stated relation to their source |
| `Sealing.LockedKeyStaysInside` | score/cryptoki/pkcs11/ffi_api_crypto/key_wrap_derive.rs:57-82 | A locked key gives up no secret attribute, and an unextractable one is never wrapped, whatever the mechanism, wrapping key or buffer |
| `Sealing.GeneratedSecretStartsLocked` | score/cryptoki/pkcs11/ffi_api_core/keys_objects_attributes_find.rs:190-200 | A generated secret key is sensitive and unextractable from the start unless the template speaks of it |
| `Sealing.GeneratedPrivateStartsLocked` | score/cryptoki/pkcs11/ffi_api_core/keys_objects_attributes_find.rs:50-77 | So is a generated private key |
| `AttributePolicy.SensitiveRatchetExact` | score/cryptoki/pkcs11/attribute_policy.rs:50-58 | An accepted write to a sensitive key keeps it sensitive if and only if the proposed value is a proper boolean |
| `AttributePolicy.ExtractableRatchetExact` | score/cryptoki/pkcs11/attribute_policy.rs:59-66 | An accepted write keeps an explicit non-extractable key so exactly for proper booleans and the empty value |
| `AttributePolicy.MalformedBooleanBreaksRatchet` | score/cryptoki/pkcs11/attribute_policy.rs:51-58 | A value that is neither 0 nor 1 is accepted in both directions, so TRUE, 2, FALSE walks past the ratchet that refuses TRUE, FALSE |
| `AttributePolicy.ApplyTemplateKeepsIdentity` | score/cryptoki/pkcs11/ffi_api_core/keys_objects_attributes_find.rs:496-513 | No template, accepted or refused half way, changes an immutable attribute, the object class, or any field outside the attribute map |
| `AttributePolicy.ApplyTemplateKeepsSealed` | score/cryptoki/pkcs11/attribute_policy.rs:48-75 | Both locks survive every well-formed template, accepted or refused half way |
| `AttributePolicy.ApplyOverrides` | score/cryptoki/pkcs11/ffi_api_crypto/misc_v240.rs:66-77 | The overrides loop over a hash map in any order, checking each key against the growing map, has the outcome the source attributes alone decide: all of them merged, or read-only |
| `AttributePolicy.SetAttributes` | score/cryptoki/pkcs11/ffi_api_core/keys_objects_attributes_find.rs:496-513 | The in-place loop does what the recursive specification says: null values skipped, stop at the first refusal, writes before it kept |
| `AttributePolicy.Collect` | score/cryptoki/pkcs11/ffi_api_crypto/helpers.rs:17-35 | Collecting a template drops null values with a length and lets later entries win |
| `Lineage.FlagsTellTheTruth` | score/cryptoki/pkcs11/attribute_policy.rs:152-176 | History flags tell the truth: an object not descended from an unsafe derivation that ends a run with `CKA_ALWAYS_SENSITIVE` was sensitive in every state since its creation, and with `CKA_NEVER_EXTRACTABLE` never extractable in any |
| `Lineage.RunKeepsTruth` | score/cryptoki/pkcs11/ffi_api_core/keys_objects_attributes_find.rs:193-200 | In every reachable state every flag is backed by its attribute, for all objects but doubtful derivations and their copies |
| `Lineage.DerivedFlagsExact` | score/cryptoki/pkcs11/ffi_api_crypto/key_wrap_derive.rs:226-232 | A derived key has truthful flags if and only if the template keeps what the base key claims |
| `Lineage.DerivedFlagsCanLie` | score/cryptoki/pkcs11/ffi_api_crypto/key_wrap_derive.rs:226-298 | Two accepted calls whose result lies: generate a key that may derive, with the defaults otherwise, then derive from it with an empty template |
| `AttributePolicy.ApplyTemplateKeepsFlags` | score/cryptoki/pkcs11/attribute_policy.rs:152-176 | Well-formed writes keep the flags truthful and never raise a lowered one |
| `Tickets.DeliveriesNeverExceedLogins` | score/cryptoki/pkcs11/session.rs:154-165 | One-shot authentication: in every run and for every session, results delivered with always-authenticate keys by sign, decrypt, unwrap and derive, plus the ticket in hand, never exceed that session's successful context-specific logins |
| `Tickets.StepBalanced` | score/cryptoki/pkcs11/ffi_api_core/session_and_login.rs:171-205 | The ticket account of every single step balances: a delivery costs a ticket, and only a context-specific login on that session mints one |
| `Tickets.OperationSpendsTicket` | score/cryptoki/pkcs11/ffi_api_crypto/sign_verify.rs:95-115 | A delivery under an always-authenticate key needs the ticket and burns it; no context operation creates one |
| `Tickets.LengthQueryChangesNothing` | score/cryptoki/pkcs11/ffi_api_crypto/sign_verify.rs:108-115 | A successful length query leaves the whole session as it was and writes no bytes |
| `Streams.ContextIsTracked` | score/cryptoki/pkcs11/ffi_api_crypto/sign_verify.rs:121-138 | For all five kinds of stream, every run and every interleaving with other calls and sessions: a live context holds exactly the mechanism, key and parameters it was opened with and the concatenation of the parts fed since |
| `Streams.StreamingDigestIsOneShot` | score/cryptoki/pkcs11/ffi_api_crypto/digest.rs:125-162 | A delivered `C_DigestFinal` is the hash of everything fed by updates and `C_DigestKey`, and any `C_Digest` of those bytes in any session delivers the same |
| `Streams.DigestFinalRetry` | score/cryptoki/pkcs11/ffi_api_crypto/digest.rs:141-162 | A length query or too-small buffer does not end the stream; retrying with the reported size delivers |
| `Streams.DigestModesNeverMix` | score/cryptoki/pkcs11/ffi_api_crypto/digest.rs:68-82 | In every reachable state no digest operation is both single-part and multi-part |
| `Streams.SignedIsAccepted` | score/cryptoki/pkcs11/ffi_api_crypto/sign_verify.rs:281-339 | A signature delivered after any chunking is accepted under any other chunking of the same message, for every mechanism and key type signing accepts, given the engine's laws; for an RSA key if and only if its `CKA_MODULUS` has the length of its modulus |
| `Streams.CheckedSignature` | score/cryptoki/pkcs11/ffi_api_crypto/sign_verify.rs:249-276 | RSA signatures of the wrong length, or under a key without `CKA_MODULUS`, are refused before verification; otherwise the answer is the backend's on the whole message |
| `Streams.GeneratedModulusFits` | score/cryptoki/pkcs11/ffi_api_core/keys_objects_attributes_find.rs:79-108 | A generated RSA public key keeps a fitting `CKA_MODULUS` for as long as it is there, whatever is written to it |
| `Backend.VerifyAcceptsSigned` | score/cryptoki/pkcs11/backend/sign_verify.rs:15-178 | The two dispatch tables agree: whatever mechanism signing accepts for a key type is verified by the same primitive on the same message |
| `Backend.RsaSignatureLength` | score/cryptoki/pkcs11/backend/sign_verify.rs:18-43 | Every RSA mechanism yields a signature of modulus length, given the engine's law |
| `Streams.SealedComesBack` | score/cryptoki/pkcs11/ffi_api_crypto/encrypt_decrypt.rs:212-274 | AEAD over whole runs: what an encrypt stream delivered, fed in any pieces to a decrypt stream with the same key, IV, AAD and the engine's tag length, comes back as the plaintext |
| `Streams.ShortFrameRefused` | score/cryptoki/pkcs11/ffi_api_crypto/encrypt_decrypt.rs:247-262 | A decrypt stream holding less than a tag is refused as invalid encrypted data, whatever the buffer |
| `Backend.AeadRoundTrip` | score/cryptoki/pkcs11/backend/symmetric.rs:41-54 | Tag append and tag split invert each other under the engine's AEAD law |
| `Backend.FrameSplitExact` | score/cryptoki/pkcs11/backend/symmetric.rs:79-94 | The split recovers ciphertext and tag if and only if it uses the tag's own length |
| `Backend.EffectiveTagLength` | score/cryptoki/pkcs11/ffi_api_crypto/helpers.rs:75-110 | Exactly which parameter blocks lead to the engine's sixteen-byte tag |
| `SessionOperations.StepMeetsExpectation` | score/cryptoki/pkcs11/ffi_api_crypto/sign_verify.rs:79-176 | Each call on each kind of stream leaves the context gone or exactly as its caller expects |
| `SessionOperations.StepKeepsDigestModes` | score/cryptoki/pkcs11/ffi_api_crypto/digest.rs:47-162 | No digest call sets the second mode flag beside the first |
| `KeyTransport.WrappedKeyComesBack` | score/cryptoki/pkcs11/ffi_api_crypto/key_wrap_derive.rs:110-196 | A blob delivered by `C_WrapKey`, unwrapped where the same wrapping key may unwrap, gives a new object holding exactly the wrapped key if and only if that key has an AES key size; otherwise nothing changes |
| `KeyTransport.WrapDelivers` | score/cryptoki/pkcs11/ffi_api_crypto/key_wrap_derive.rs:19-105 | Whatever `C_WrapKey` delivers is the wrapping of an extractable key under a permitted, and if demanded trusted, wrapping key of the same slot |
| `LoginSteps.InterleavingsAgree` | score/cryptoki/pkcs11/session.rs:178-208 | Under every interleaving of lock-sized steps all sessions of a slot carry the same login state, so looking at any of them shows the slot's |
| `LoginSteps.SoRuleExact` | score/cryptoki/pkcs11/session.rs:298-311 | With lock-sized steps the SO rule holds throughout if and only if no SO login lands beside a read-only session |
| `LoginSteps.CheckThenLoginCanRace` | score/cryptoki/pkcs11/ffi_api_core/session_and_login.rs:209-243 | The check and the login are separate sections: a read-only session opened in between ends up logged in as the SO |
| `Sessions.AnySessionShowsSlotLogin` | score/cryptoki/pkcs11/session.rs:326-333 | Under agreement the "find any session" lookup is well defined |
| `Sessions.LoginAllExact` | score/cryptoki/pkcs11/session.rs:303-308 | Logging a slot in keeps agreement always, and the SO rule exactly when no read-only session is open there |
| `Sessions.OpenKeepsAgreement` | score/cryptoki/pkcs11/session.rs:178-208 | Opening a session keeps agreement and the SO rule |
| `Sessions.InfoAgreesWithFlags` | score/cryptoki/pkcs11/session.rs:244-270 | The state reported by `C_GetSessionInfo` is a read-write state exactly when the session flags say so |
| `Invariants.ReportedStateAgrees` | score/cryptoki/pkcs11/session.rs:244-270 | In every reachable state the reported session state agrees with the flags of that session and with the login state of every session of its slot; the SO state is reported beside read-write sessions only |
| `Tokens.TokenRunKeepsOk` | score/cryptoki/pkcs11/token.rs:160-250 | Over every run both failure counters stay at most ten and the SO counter is ten exactly in the read-only state |
| `Tokens.CounterCountsFailures` | score/cryptoki/pkcs11/token.rs:219-250 | The stored user counter is exactly the number of counted failures in a row since the last success or reset; a wrong `C_SetPIN` counts twice |
| `Tokens.LockedUserPinStaysLocked` | score/cryptoki/pkcs11/token.rs:219-250 | A locked user PIN rejects every login and PIN change until `C_InitPIN` or `C_InitToken` succeeds |
| `Tokens.FlagsPredictNextAttempt` | score/cryptoki/pkcs11/token.rs:264-297 | What `token_flags` announces about the next wrong attempt is what happens |
| `Tokens.ChangePinAcceptsExactlyNew` | score/cryptoki/pkcs11/ffi_api_core/session_and_login.rs:66-83 | A successful `C_SetPIN` leaves exactly the new PIN accepted; a failed one, or one with a wrong old PIN, leaves the accepted PIN unchanged; the other role is never touched |
| `Tokens.InitTokenThenLogin` | score/cryptoki/pkcs11/token.rs:160-184 | A successful `C_InitToken` leaves exactly its PIN accepted for the SO and none for the user, and can be repeated with that PIN; a refused one changes nothing |
| `Tokens.InitPinThenLogin` | score/cryptoki/pkcs11/token.rs:187-197 | A successful `C_InitPIN` leaves exactly its PIN accepted for the user, locked before or not, and the SO as it was |
| `PinRuns.TokenFollowsRun` | score/cryptoki/pkcs11/ffi_api_core/session_and_login.rs:209-243 | Over every run, with shutdowns, restarts and crashes anywhere, a slot's token in memory and on disk are the two records of a reference automaton that token operations, saves and crashes move |
| `PinRuns.StepRecord` | score/cryptoki/pkcs11/token.rs:305-357 | One step of any kind moves both records as the automaton does |
| `PinRuns.StepMovesToken` | score/cryptoki/pkcs11/ffi_api_core/session_and_login.rs:19-92 | Each call moves a token by at most one token operation and reports that operation's outcome |
| `PinRuns.LockedThroughoutExact` | score/cryptoki/pkcs11/token.rs:219-250 | A locked user PIN stays locked over a whole run if and only if the run has no successful `C_InitPIN` or `C_InitToken` on the slot, no crash while the lock is not on disk and no shutdown while the slot is not registered |
| `PinRuns.LockedOutUntilReset` | score/cryptoki/pkcs11/ffi_api_core/session_and_login.rs:228-243 | After any run that takes none of those ways out, every user login on the slot fails, with pin-locked once it reaches the PIN |
| `PinRuns.CrashKeepsLockExact` | score/cryptoki/pkcs11/object_store.rs:423-457 | After a crash and a restart a slot's token is the one on disk, else the default one, so it is locked exactly when that one is |
| `PinRuns.SavedLockSurvives` | score/cryptoki/pkcs11/object_store.rs:382-413 | A saving call brings the stored token up to date, and it stays so until the next operation on the token |
| `PinRuns.CrashForgetsFailures` | score/cryptoki/pkcs11/ffi_api_core/session_and_login.rs:235-243 | Refused logins are counted and not saved: ten wrong PINs lock the user PIN and a crash before the next saving call brings back the counter on disk |
| `PinRuns.ContextLoginExact` | score/cryptoki/pkcs11/ffi_api_core/session_and_login.rs:173-199 | A context-specific login succeeds exactly for a logged-in user with the right PIN and, in `C_Login`, an active operation; the failure counter plays no part |
| `PinRuns.LockDoesNotLogOut` | score/cryptoki/pkcs11/ffi_api_core/session_and_login.rs:66-92 | A logged-in user can lock the PIN by a wrong `C_SetPIN` and still re-authenticates with the right one |
| `Saving.SaveExact` | score/cryptoki/pkcs11/object_store.rs:164-180 | Every call saves exactly when it succeeded and set a PIN or label or touched a token object, and then the disk has every registered token and every token object but profiles as they are, handles being fresh; any other call leaves the disk alone |
| `Saving.SavedToken` | score/cryptoki/pkcs11/object_store.rs:404-420 | Once saved, a restart finds a registered slot's token as it is; an unregistered slot's token is dropped |
| `Search.SearchFollowsRun` | score/cryptoki/pkcs11/ffi_api_core/keys_objects_attributes_find.rs:523-580 | In every legal run a live search lists, without duplicates, exactly the visible matches at its start; what was handed out in batches of any sizes is its prefix up to the cursor; a logged-out session's search holds nothing that was private then |
| `Search.ShortBatchEndsSearch` | score/cryptoki/pkcs11/ffi_api_core/keys_objects_attributes_find.rs:546-569 | A batch smaller than asked for means everything expected has been handed out, each object once |
| `Search.LogoutClearsPrivateSessionObjects` | score/cryptoki/pkcs11/ffi_api_core/session_and_login.rs:248-270 | After `C_Logout` exactly the slot's private session objects are gone, every session there is logged out and has no live search |
| `Search.FindMatching` | score/cryptoki/pkcs11/object_store.rs:222-233 | Filtering the map in any order lists each visible match exactly once |
| `Search.Searcher.FindAll` | score/cryptoki/cpp/pkcs11_cpp.hpp:803-816 | The C++ batch loop terminates, returns every visible match exactly once and ends the search; a search under way is refused and left alone |
| `Search.Searcher.Init` | score/cryptoki/pkcs11/ffi_api_core/keys_objects_attributes_find.rs:523-543 | A search starts with an exact snapshot or, if one is active, changes nothing |
| `Search.Searcher.Next` | score/cryptoki/pkcs11/ffi_api_core/keys_objects_attributes_find.rs:546-569 | The copy loop writes the next batch to the front of the caller's array, leaves the rest of it alone and moves the cursor by what it wrote |
| `AttributeQuery.GetAttributes` | score/cryptoki/pkcs11/ffi_api_core/keys_objects_attributes_find.rs:400-477 | The loop fills each entry in place from its own type, its buffer and the object alone, up to the first engine failure, and returns the summary of all outcomes or that failure |
| `AttributeQuery.GetAttributeValue` | score/cryptoki/pkcs11/ffi_api_core/keys_objects_attributes_find.rs:383-478 | Without session or object on its slot nothing is written; otherwise the loop's result |
| `AttributeQuery.OrderIrrelevantExact` | score/cryptoki/pkcs11/ffi_api_core/keys_objects_attributes_find.rs:468-477 | The return code is the same under every permutation of the template if and only if no two entries fail with different engine errors |
| `AttributeQuery.OneCodeOrderIrrelevant` | score/cryptoki/openssl_provider.rs:654-722 | With an engine that fails with one code at most for the object, whatever attribute it is asked for, or with no engine, every order of the template gives the same return code |
| `AttributeQuery.OrderCanMatter` | score/cryptoki/pkcs11/ffi_api_core/keys_objects_attributes_find.rs:428-452 | On a public key that `C_CreateObject` accepts without modulus and exponent, and an engine with two failure codes, the same two entries in the other order give another return code |
| `AttributeQuery.QueryThenFetch` | score/cryptoki/pkcs11/ffi_api_core/keys_objects_attributes_find.rs:455-463 | A fetch with buffers of the queried sizes has the query's outcomes, never too-small, and delivers every sized value whole |
| `AttributeQuery.LockedKeyIsWithheld` | score/cryptoki/pkcs11/ffi_api_core/keys_objects_attributes_find.rs:402-407 | A secret attribute of a locked key is withheld: sensitive code, buffer untouched |
| `Locking.NoDeadlock` | score/cryptoki/pkcs11/ffi_api_crypto/key_wrap_derive.rs:40-44 | For any number of threads making any calls in any interleaving: a writer excludes everybody else, no thread waits for a lock it holds, and while work is left some thread can step |
| `Locking.ProgramOrdered` | score/cryptoki/pkcs11/ffi_api_core/lifecycle_and_slot_token.rs:56-81 | Every entry point nests its locks in the order global, objects, tokens, sessions, registry |
| `Locking.PieceOrdered` | score/cryptoki/pkcs11/object_store.rs:382-457 | Every lock section of the library, saving, loading, start-up and shutdown included, takes only locks that rank above those it holds |
| `Locking.SomeoneCanStep` | score/cryptoki/pkcs11/object_store.rs:382-405 | With ordered stacks, and locks that keep new readers out behind a waiting writer, some unfinished thread can always step |
| `Locking.WantedRanksAboveHeld` | score/cryptoki/pkcs11/ffi_api_crypto/sign_verify.rs:101-106 | A thread about to take a lock holds nothing of that rank or above, so no lock is re-entered |
| `Locking.StepKeepsExclusive` | score/cryptoki/pkcs11/object_store.rs:150-150 | Mutual exclusion of writers is kept by every step |
| `Registry.RegistryRunLaidOut` | score/cryptoki/registry.rs:88-113 | After any sequence of registrations and resets the ids are exactly 0 to next, one contiguous block per engine |
| `Registry.SlotLookupInvertsLayout` | score/cryptoki/registry.rs:119-127 | The i-th id of an engine's block looks up that engine and i |
| `Registry.BlocksDisjoint` | score/cryptoki/registry.rs:88-113 | No id belongs to two engines |
| `Registry.RegisterKeepsLayout` | score/cryptoki/registry.rs:96-112 | Registering an engine keeps the layout |
| `Registry.SlotRegistry.RegisterEngine` | score/cryptoki/registry.rs:88-113 | The insertion loop appends exactly one block and returns its ids |
| `Registry.SlotRegistry.EngineForSlot` | score/cryptoki/registry.rs:119-127 | Exactly the ids handed out are found, and the engine and internal index found lead back to the id |
| `Registry.SlotRegistry.SlotIds` | score/cryptoki/registry.rs:138-143 | The sorted keys of a well laid out registry are 0, 1, ... next - 1 |
| `Tokens.Token.TokenFlags` | score/cryptoki/pkcs11/token.rs:264-297 | The bit mask built step by step describes PINs, counters and state bit by bit |
| `Sessions.SessionTable.OpenSession` | score/cryptoki/pkcs11/session.rs:178-208 | Opens with the slot's login state or refuses, keeping agreement |
| `Sessions.SessionTable.LoginStateForSlot` | score/cryptoki/pkcs11/session.rs:326-333 | Whatever order the map is scanned in, the first session of the slot shows its login state |
| `Sessions.SessionTable.LoginAllSessionsOnSlot` | score/cryptoki/pkcs11/session.rs:303-308 | The update loop sets exactly the slot's sessions |
| `Sessions.SessionTable.ReleaseFindContextsOnSlot` | score/cryptoki/pkcs11/session.rs:313-323 | The update loop drops exactly the slot's searches |
| `Sessions.SessionTable.HasReadOnlySessionsOnSlot` | score/cryptoki/pkcs11/session.rs:298-300 | True exactly when a read-only session of the slot exists |
| `ObjectStores.ObjectStore.Retain` | score/cryptoki/pkcs11/object_store.rs:351-370 | The filtering loop, in any order, drops exactly the objects it should and alters none |
| `ObjectStores.ObjectStore.DestroyForSession` | score/cryptoki/pkcs11/object_store.rs:351-355 | Drops exactly the objects tagged with that session |
| `ObjectStores.ObjectStore.DestroySessionObjects` | score/cryptoki/pkcs11/object_store.rs:359-363 | Drops exactly the slot's session objects |
| `ObjectStores.ObjectStore.DestroyPrivateSessionObjects` | score/cryptoki/pkcs11/object_store.rs:366-370 | Drops exactly the slot's private session objects |
| `ObjectStores.ObjectStore.ClearSlot` | score/cryptoki/pkcs11/object_store.rs:260-267 | Drops exactly the slot's objects |
| `ObjectStores.ObjectStore.EnsureBaselineProfile` | score/cryptoki/pkcs11/object_store.rs:284-314 | One profile per slot: no change if there is one, else one under the next handle |
| `ObjectStores.ObjectStore.Serialise` | score/cryptoki/pkcs11/object_store.rs:382-402 | The loop saves exactly the non-profile token objects of registered slots |
| `ObjectStores.ObjectStore.MaxHandle` | score/cryptoki/pkcs11/object_store.rs:443-443 | The greatest handle, zero for the empty store |
| `ObjectStores.ObjectStore.Merge` | score/cryptoki/pkcs11/object_store.rs:426-441 | The load loop merges exactly the stored objects of registered slots |
| `ObjectStores.ObjectStore.Load` | score/cryptoki/pkcs11/object_store.rs:423-446 | After the merge the counter is past the saved one and every handle in the store |
| `Providers.Provider.Run` | score/cryptoki/pkcs11/mod.rs:125-131 | Any sequence of calls performed by this code, crashes included, is a legal run of the state machine: the stores end in the machine's state and every answer is the machine's answer |
| `Providers.Serve` | score/cryptoki/pkcs11/ffi_api_core/lifecycle_and_slot_token.rs:18-92 | A process over a well-formed disk that serves any calls ends with the whole invariant: the run theorem carried over to the code |
| `Providers.Provider.Perform` | score/cryptoki/pkcs11/mod.rs:113-131 | One call is one legal step; only the order in which a search lists its matches is the map's own choice |
| `Providers.Provider.Initialize` | score/cryptoki/pkcs11/ffi_api_core/lifecycle_and_slot_token.rs:18-92 | Registration, the load loop, the token loop and the profile loop together are the start-up step, and the slot layout is kept |
| `Providers.Provider.Finalize` | score/cryptoki/pkcs11/mod.rs:53-64 | Sessions, save, objects, tokens, registry, in that order, are the shutdown step: the save sees the registry and no session |
| `Providers.Provider.InitToken` | score/cryptoki/pkcs11/ffi_api_core/lifecycle_and_slot_token.rs:450-486 | The in-place token update, the clearing loop, two saves and the profile in between are one step; a refusal saves nothing |
| `Providers.Provider.InitPIN` | score/cryptoki/pkcs11/ffi_api_core/session_and_login.rs:19-43 | Two session lookups, the in-place token update and the save loops are one step |
| `Providers.Provider.SetPIN` | score/cryptoki/pkcs11/ffi_api_core/session_and_login.rs:46-92 | The in-place verify, retry and set, the save loops and the ticket are one step |
| `Providers.Provider.OpenSession` | score/cryptoki/pkcs11/ffi_api_core/session_and_login.rs:97-114 | The scan for the slot's login state and the insertion are one step, and sessions keep agreeing |
| `Providers.Provider.CloseSession` | score/cryptoki/pkcs11/ffi_api_core/session_and_login.rs:117-124 | Removing the session and filtering the object store are one step |
| `Providers.Provider.CloseAllSessions` | score/cryptoki/pkcs11/ffi_api_core/session_and_login.rs:127-137 | Filtering the session table and the object store are one step |
| `Providers.Provider.Login` | score/cryptoki/pkcs11/ffi_api_core/session_and_login.rs:153-245 | The scans for login state and readers, the in-place PIN check and the update loop over the slot are one step, for `C_Login` and `C_LoginUser` |
| `Providers.Provider.Logout` | score/cryptoki/pkcs11/ffi_api_core/session_and_login.rs:248-270 | The three loops over searches, private session objects and login states, in that order, are one step |
| `Providers.Provider.CreateObject` | score/cryptoki/pkcs11/ffi_api_core/keys_objects_attributes_find.rs:274-331 | Collecting the template, drawing a handle, storing and saving are one step |
| `Providers.Provider.CopyObject` | score/cryptoki/pkcs11/ffi_api_crypto/misc_v240.rs:18-95 | Drawing the handle first, the override loop in any order, storing and saving are one step |
| `Providers.Provider.DestroyObject` | score/cryptoki/pkcs11/ffi_api_core/keys_objects_attributes_find.rs:336-361 | Lookups, removal and save are one step |
| `Providers.Provider.SetAttributeValue` | score/cryptoki/pkcs11/ffi_api_core/keys_objects_attributes_find.rs:483-518 | The write loop on the stored object and the save, or the early return without one, are one step |
| `Providers.Provider.GenerateKey` | score/cryptoki/pkcs11/ffi_api_core/keys_objects_attributes_find.rs:141-252 | Template checks, stamping, storing and saving are one step |
| `Providers.Provider.GenerateKeyPair` | score/cryptoki/pkcs11/ffi_api_core/keys_objects_attributes_find.rs:19-138 | Two draws and two stores, each saving its own token object, are one step |
| `Providers.Provider.UnwrapKey` | score/cryptoki/pkcs11/ffi_api_crypto/key_wrap_derive.rs:110-196 | Checks under the object lock, store, save and ticket are one step |
| `Providers.Provider.DeriveKey` | score/cryptoki/pkcs11/ffi_api_crypto/key_wrap_derive.rs:201-311 | Checks under the object lock, store, save and ticket are one step |
| `Providers.Provider.Sign` | score/cryptoki/pkcs11/ffi_api_crypto/sign_verify.rs:79-176 | Taking the context, checking the key and putting the context back after a length query add up to one step, for `C_Sign` and `C_SignFinal` |
| `Providers.Provider.Decrypt` | score/cryptoki/pkcs11/ffi_api_crypto/encrypt_decrypt.rs:161-274 | The same for `C_Decrypt` and `C_DecryptFinal` |
| `Providers.Provider.Digest` | score/cryptoki/pkcs11/ffi_api_crypto/digest.rs:47-94 | Marking the mode in one section and ending the operation in another, only after a delivery, add up to one step |
| `Providers.Provider.DigestFinal` | score/cryptoki/pkcs11/ffi_api_crypto/digest.rs:125-162 | The same for the multi-part side |
| `Providers.Provider.DigestKey` | score/cryptoki/pkcs11/ffi_api_crypto/misc_v240.rs:142-179 | Taking the context out and putting it back with the key's bytes add up to one step |
| `Providers.Provider.FindObjectsInit` | score/cryptoki/pkcs11/ffi_api_core/keys_objects_attributes_find.rs:523-543 | The filter over the object map yields a snapshot that is legal in the machine's sense, and storing it is one step |
| `Providers.Provider.PersistIfNeeded` | score/cryptoki/pkcs11/object_store.rs:382-420 | The two loops write exactly the snapshot of the state |
| `Providers.Provider.StoreObject` | score/cryptoki/pkcs11/object_store.rs:164-180 | Session objects are tagged, token objects saved |
| `Providers.Provider.RestoreTokens` | score/cryptoki/pkcs11/object_store.rs:449-457 | The token loop, or the legacy single token, ends in exactly the loaded tokens |
| `Types.UlongRoundTrip` | score/cryptoki/pkcs11/backend.rs:69-78 | `CK_ULONG` values survive being stored as attribute bytes and read back |
| `Types.WriteToOutput` | score/cryptoki/pkcs11/mod.rs:168-180 | Always reports the length; writes the bytes exactly when a buffer is given and long enough |

## Left out

- Cryptography: OpenSSL and Argon2 are functions with stated laws; a stored PIN is the PIN it accepts.
- Raw pointers: null pointers are options and buffers carry a capacity; null output pointers whose only effect is `CKR_ARGUMENTS_BAD` are not modelled, except the null length pointer of the digest calls, which drops the operation. Aliasing of the caller's output buffers is not modelled.
- Storage files: JSON, temporary files, fsync and file locks are one disk value saved and loaded as identity, and saves always succeed. The stored objects are a map by handle, not a vector, so their order and duplicate handles in a file are not modelled.
- Key serialisation by the engine always succeeds and is the identity on key bytes, so the branches that log a failed object and skip it are not modelled.
- Environment: fork handling, RNG reseeding, logging and environment variables; slot count and generated key material are arguments of the call.
- Mechanism lists, mechanism info and slot info tables, `C_GetInfo`, `C_GetFunctionList` and interface discovery: finite lookups.
- `C_GetObjectSize`, `C_GetOperationState`, `C_SetOperationState`, `C_SeedRandom`, `C_GenerateRandom` and `C_WaitForSlotEvent`: only their locks are modelled.
- Message encryption: its contexts open and close as in the source because a login looks at them, the messages themselves are not modelled; message signing always answers not supported.
- Mechanism parameters: raw reinterpretation of parameter blocks is a case split on null, raw bytes and a GCM block.
- A token that was never touched reads as the default token; the lazily created entry itself is not inserted by a read.
- Interleavings of whole calls below the grain of a call are modelled for the session table (`LoginSteps`) and for lock acquisition (`Locking`) only; everything in `Machine` takes calls as atomic.
- Engine slots: the machine registers one engine per start-up, as `C_Initialize` does; several engines are covered by `Registry` alone.
- Locking.NoDeadlock: does not model the file lock taken while saving, and assumes engines take none of the five locks.
- Providers.Provider.Initialize: does not model the second registration attempt on an already registered engine, because the registry is empty whenever the library is not initialised.
- Sealing.LineageLockedExact: runs that propose a malformed boolean to a member are outside it; `SensitiveRatchetExact` and `ExtractableRatchetExact` say what such a write does.
