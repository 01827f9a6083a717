# SecurityParameters: the TLS per-connection security-state record

Bouncy Castle's TLS stack keeps, for every connection, one mutable
`SecurityParameters` record. Handshake code fills it in as negotiation goes on.
It holds:

- the connection end and the cipher suite;
- the PRF, the verify-data length and the maximum fragment length;
- six secret handles: the early, handshake, master and shared secrets and
  the two traffic secrets;
- the randoms, the session hash and the session id;
- the PSK and SRP identities;
- the channel-binding values;
- the extension flags, the certificates and the verify data.

The record itself has one behavioural operation, `clear()`. It forgets six
negotiation-scoped references, then runs `clearSecret` over the six secret
slots in a fixed order: early, handshake, master, shared, client traffic,
server traffic. `clearSecret` calls `destroy()` on a non-null secret and
yields null, and `clear()` stores that null back into the slot. Every other
method is a read-only accessor.

The project has three files:

- `tls_types.dfy` (module `TlsTypes`):
  - Java's `byte`/`short`/`int` as newtypes.
  - The sentinel and null-suite constants.
  - The collaborator types, held only by reference.
  - `Secret`, the stand-in for the crypto layer's secret handle. Its
    `throwsOnDestroy` constant says whether its `destroy()` raises. The
    outcome is the same on every call (see "Left out").
- `clear_spec.dfy` (module `ClearSpec`) is the value-level specification:
  - The record as a `State` value: `Retained` fields, `Transients` fields and `Slots`.
  - The defaults (`Initial`).
  - What `clear()` does to the slots (`FirstThrowing`, `ClearSucceeds`,
    `ClearedSlots`) and which secrets it destroys, in call order (`DestroyCalls`).
  - An independent list-based reference (`FirstThrowingIn`, `NullPrefix`,
    `Held`, `Attempted`), with lemmas tying the two together.
- `security_parameters.dfy` (module `Tls`) holds the class `SecurityParameters`:
  - all 39 fields, with `compressionAlgorithm` as a `const`;
  - the constructor, `Clear` and `ClearSecret`;
  - the 39 accessors.

  `Clear` is written as its two halves, in source order:
  - `ForgetNegotiation` models lines 56-61.
  - `ClearSecrets` models lines 63-68.

  Each half's contract ties the new field values to the spec functions of the old ones.

`destroy()` is code this model cannot see. Raising is modelled as follows:

- `Secret.Destroy` and `ClearSecret` return `ok == false` when `destroy()` raises.
- When that happens, `Clear` returns at once with `ok == false`. The raising
  slot and all later slots keep their secrets, because in the source the
  exception skips the assignment and the rest of the method.

The calls to `destroy()` are reported as a ghost trace: `destroyed`, listed in call order.

What the record's own code does not do:

- It does not make the role write-once.
- It has no setter, so it never destroys a secret that other code overwrites.
- `clear()` stops at the first `destroy()` that raises, so later secrets are
  not destroyed (lines 63-68).

The accessors are functions. Each `reads` clause names the accessor's own
field and nothing else, except on `GetCompressionAlgorithm`: its field is a
`const`, so it needs no `reads` clause. Each accessor returns its field's
current value and changes nothing.
Their bodies are the whole statement, so they have no `ensures`, except
`GetCompressionAlgorithm`. A secret object that sits in two slots is
destroyed twice. The counting lemmas use multisets for that reason.

## Model

| member | source | states |
|---|---|---|
| Tls.SecurityParameters.constructor | tls/src/main/java/org/bouncycastle/tls/SecurityParameters.java:12-52 | A new record holds the field initialisers' values. The five integer sentinels are -1, the cipher suite is TLS_NULL_WITH_NULL_NULL, every reference (all six secrets included) is null and every flag, `applicationProtocolSet` included, is false. |
| Tls.SecurityParameters.Clear | tls/src/main/java/org/bouncycastle/tls/SecurityParameters.java:54-69 | Writes only the six negotiation-scoped fields and the six secret slots (its modifies clause), so every other field keeps its value. Afterwards the six negotiation-scoped fields are null. The slots are the old slots with every slot before the first raising `destroy()` emptied. `ok` holds exactly when no slot raised. The secrets `destroy()` was called on are `DestroyCalls` of the old slots, in order. |
| Tls.SecurityParameters.ForgetNegotiation | tls/src/main/java/org/bouncycastle/tls/SecurityParameters.java:56-61 | sessionHash, sessionID, clientServerNames, clientSigAlgs, clientSigAlgsCert and clientSupportedGroups are null afterwards, and no other field is written. |
| Tls.SecurityParameters.ClearSecrets | tls/src/main/java/org/bouncycastle/tls/SecurityParameters.java:63-68 | The slots are stored back in order. It stops at the first slot whose `destroy()` raises, which keeps its secret, as do all later slots. The new slots are `ClearedSlots` of the old ones, and the destroy trace is `DestroyCalls` of the old ones. |
| Tls.SecurityParameters.ClearSecret | tls/src/main/java/org/bouncycastle/tls/SecurityParameters.java:281-288 | Always yields null. Reports failure exactly when the secret is non-null and its `destroy()` raises. Its destroy trace lists the secret once when it is non-null and is empty on null. The trace is recorded beside the `destroy()` call; see "Left out". |
| Tls.SecurityParameters.GetCompressionAlgorithm | tls/src/main/java/org/bouncycastle/tls/SecurityParameters.java:120-123 | Always returns the null compression method. The field is final (line 16), so the value is the same before and after `clear()`. |
| ClearSpec.FirstThrowingInMeaning | tls/src/main/java/org/bouncycastle/tls/SecurityParameters.java:63-68 | The reference stopping index is the first raising slot. No slot before it raises, and the slot at it does when it is inside the list. |
| ClearSpec.FirstThrowingInIs | tls/src/main/java/org/bouncycastle/tls/SecurityParameters.java:63-68 | Any index with that meaning is the stopping index, so the first raising slot is unique. |
| ClearSpec.FirstThrowingAgrees | tls/src/main/java/org/bouncycastle/tls/SecurityParameters.java:63-68 | The slot-by-slot stopping point used by `Clear` equals the first raising index of the slot list. |
| ClearSpec.ClearStopsAtFirstRaise | tls/src/main/java/org/bouncycastle/tls/SecurityParameters.java:63-68 | `clear()` completes every slot before the first raising one and stops at that one. It returns normally exactly when no slot raises. |
| ClearSpec.ClearedSlotsEmptiesTheSlotsBeforeTheFirstRaise | tls/src/main/java/org/bouncycastle/tls/SecurityParameters.java:63-68 | Read as a list, the slots `clear()` leaves are the old list with exactly the slots before the first raising one set to null. |
| ClearSpec.HeldCounts | tls/src/main/java/org/bouncycastle/tls/SecurityParameters.java:281-288 | The secrets a run of slots holds list every non-null slot once per slot and nothing else. |
| ClearSpec.DestroyCallsAreHeldAttempted | tls/src/main/java/org/bouncycastle/tls/SecurityParameters.java:63-68 | The destroy trace of `clear()` is, in order, the secrets held by the slots it attempts: every slot up to and including the raising one. |
| ClearSpec.DestroyCallsCount | tls/src/main/java/org/bouncycastle/tls/SecurityParameters.java:281-288 | `destroy()` is called once for each occupied attempted slot, and on nothing else. |
| ClearSpec.SuccessfulClearDestroysEveryHeldSecret | tls/src/main/java/org/bouncycastle/tls/SecurityParameters.java:63-68 | When `clear()` returns normally, `destroy()` has been called exactly once for each occupied slot: each secret as often as slots hold it, never for an empty slot. |
| ClearSpec.ClearIsIdempotent | tls/src/main/java/org/bouncycastle/tls/SecurityParameters.java:63-68 | A second `clear()` leaves the slots as the first did and stops at the same slot, whether the first returned or raised. After a raise, this holds if the raising secret's `destroy()` raises again (see "Left out"). |
| ClearSpec.SecondClearDestroysNothing | tls/src/main/java/org/bouncycastle/tls/SecurityParameters.java:281-288 | After a `clear()` that returned normally, every slot is null. A second `clear()` returns normally and calls no `destroy()`. |
| ClearSpec.SecondClearRetriesOnlyTheThrowingSlot | tls/src/main/java/org/bouncycastle/tls/SecurityParameters.java:63-68 | After a `clear()` that raised, if the raising secret's `destroy()` raises again, a second `clear()` raises at the same slot. Its only `destroy()` call is then on that secret. |
| ClearSpec.SecondClearStartsAtTheRaisingSecret | tls/src/main/java/org/bouncycastle/tls/SecurityParameters.java:63-68 | After a `clear()` that raised, whatever `destroy()` does next: every slot before the raising one is null and the raising slot still holds its secret. So the first secret a second `clear()` passes to `destroy()` is the one that raised. |
| ClearSpec.InitialIsCleared | tls/src/main/java/org/bouncycastle/tls/SecurityParameters.java:20-25 | In a fresh record every slot is null, so `clear()` returns normally, leaves the slots as they are and destroys nothing. |

The 38 other accessors (lines 74-279) have no rows. The paragraph above the table
describes them: each is a function whose `reads` clause names only its own field,
and it returns that field's value.

## Left out

- Tls.SecurityParameters.Clear: it states "every other field keeps its value" with its field-by-field modifies clause, which the verifier checks. There is no `ensures` over the whole record value. That equation costs more solver effort than this model can afford.
- ClearSpec.ClearIsIdempotent: a secret's `destroy()` is assumed to raise on every call or on none. The model fixes each secret's outcome as a constant. A retried `destroy()` that succeeds would let a second `clear()` go past the slot where the first stopped. That case is not covered; `SecondClearStartsAtTheRaisingSecret` states what holds whatever `destroy()` does.
- ClearSpec.SecondClearRetriesOnlyTheThrowingSlot: a secret's `destroy()` is assumed to raise on every call or on none. With a retry that succeeds, the second `clear()` would go on and destroy later secrets. The same constant also rules out one object held in two slots whose `destroy()` succeeds at the first slot and raises at the later one.
- Tls.SecurityParameters.ClearSecrets: each secret's `destroy()` outcome is a constant, so it also shapes a single `clear()`. Take one object held in the early and master slots whose first `destroy()` succeeds and whose second raises: the source raises at line 65, but `ClearSecrets` and `Clear` return `ok == true`. That case is not covered.
- Tls.SecurityParameters.Clear: the same per-object constant outcome applies; a secret held in two slots gets the same `destroy()` outcome at both.
- Tls.SecurityParameters.ClearSecret: the destroy trace `called` is recorded beside the `destroy()` call, and `Secret.Destroy` has no modelled effect on the secret. The verifier checks the trace and the failure flag. That `destroy()` itself is called is seen by reading the body, not proved. A ghost destroyed flag or counter on the secret is left out because it costs more solver effort than this model can afford.
- The internals of the crypto layer's secret handle are left out. Only whether `destroy()` raises is modelled. The handle's own "destroyed" state is replaced by the ghost trace of `destroy()` calls that `Clear` returns.
- The exception that `destroy()` raises is modelled as `ok == false`. Its type and its propagation to the caller of `clear()` are left out.
- The contents of the byte arrays, the `int[]` of groups, the vectors, the certificates, the protocol name and the protocol version are left out. The record stores and returns them by reference and never looks inside.
- CipherSuite.java and CompressionMethod.java are not part of this model. Their two constants are taken from RFC 5246: TLS_NULL_WITH_NULL_NULL is {0x00, 0x00} (appendix A.5), and the null compression method is 0 (section 7.4.1.2).
- The package-private field writes done by the handshake code are left out. The source file has no setters. That code is not part of this model, so no operation other than the constructor and `clear()` changes the record.
- Concurrency is left out. The record has none.
