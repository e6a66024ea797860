# A verified model of the PQC document-signing system

The system signs PDFs on the client with an ML-DSA key that never leaves the device, and runs a
receiver server that enrols devices, hands out reservations, checks what was signed and keeps it. This
project models the logic around the cryptography, in Dafny, and proves what that logic promises over
all inputs and all runs. `dafny verify dfyconfig.toml` checks everything.

| component | modules |
|---|---|
| offline CA: ledger, numbered CRLs, hexadecimal serials | `Hex`, `Pki`, `CaLedger` |
| CRL check and document verdict | `Verification` |
| resumable upload: server sessions, the two client loops | `Uploads`, `UploadClient` |
| receiver: the store, the handlers as steps, what every run keeps | `Store`, `Tiers`, `ObjectKey`, `Receiver`, `ReceiverInvariant`, `ReceiverTheorems`, `Revocation` |
| what each step does in its caller's terms, and what that means over runs | `HandlerLaws` |
| the handlers as code over mutable state, proved to be those steps | `Handlers` |
| overlapping submissions, one store call at a time | `Interleaving` |
| the whole receiver with submissions in flight | `ConcurrentReceiver` |
| runs that reach an accepted record, and those behind failing properties | `Scenario` |
| stamp caption, stamp position, phone preview | `Caption`, `Stamp` |
| rate limiter with eviction, one request at a time and concurrent | `Limiter`, `LimiterInterleaving` |
| PIN/DPAPI key envelope | `Envelope` |
| schema migrations | `Migrations` |

Code that updates state is a class or a method with loops, specified by a function on the abstract
state (`View()`); the theorems are about runs of those functions.

## How the outside world appears

- Foreign code (X.509, CMS and PDF parsing, hashes, chain building, CRL signatures, AEAD, KDF, DPAPI) is a
  record of unconstrained functions: `Pki.World`, `Envelope.Crypto`. Where a law of it is used it is a stated
  hypothesis: `Envelope.Ideal`, which `Envelope.IdealCryptoExists` shows can be met, and
  `ReceiverTheorems.FingerprintsIdentifyKeys` (a certificate found in a document and one issued to the server with
  the same fingerprint hold the same key), which `Scenario.AcceptanceIsReachable` meets together with an accepted record.
- Random identifiers do not repeat: `Db.used` is every identifier drawn so far, and a step that draws one draws
  a new one.
- The iteration order of a Go map is any order. A lookup that depends on it is a relation with several possible
  answers (`NewestOfDevice`, `SerialIndex`), and theorems hold for all of them.
- Clocks, disk and network faults, and the outcome of calls to the CA are arguments of each step.
- `Receiver` runs each handler to its end before the next; `Uploads` interleaves critical sections,
  `Interleaving` the store calls of submissions, `ConcurrentReceiver` those together with all other handlers,
  `LimiterInterleaving` the two halves of a request, `Migrations` any number of starting servers.
- Unique serials, which the schema index demands (server/internal/store/migrations/0001_init.up.sql:48), are
  assumed only where a lemma says `UniqueSerials`.

## What turned out not to hold

Each of these comes with the condition under which the property does hold; where that condition does not show
the failing input by itself, a lemma gives it.

- A copy error on the very byte that crosses the upload cap leaves a live session one byte over it, and submitting
  that session makes a record one byte over the limit. A run stays within the limit if and only if it has no such
  error (`ReceiverTheorems.StepCappedIff`, `AlwaysCappedIff`, `RecordOverLimitIff`); for all ordered limits the
  record is reachable (`Scenario.OverLimitRecordIsReachable`).
- The order stamp ≤ verify ≤ upload is established exactly when the configured upload limit is not negative
  (`Tiers.Normalise`).
- Two overlapping submissions of one reservation can leave a record whose hash is not that of the stored object
  (`Interleaving.OverlappingSubmissionsDisagree`); step by step, `Interleaving.AgreementIff` says which store call does it.
- The size of an upload is read before its bytes. A chunk arriving in between makes the recorded size, or the tier,
  differ from the stored bytes (`Interleaving.DecidedRecordIff`, `Interleaving.GrowingUploadMisrecorded`).
- Disabling an account does not stop a submission that has already seen its certificate active: exactly those can
  still become accepted records (`ConcurrentReceiver.LateAcceptanceIff`, `Scenario.AcceptedAfterDisabling`).
- A disabled account can still have an oversized document stored, unverified, for a reservation it left open
  (`ReceiverTheorems.DisabledMayStillStore`).
- A failed ledger save after the CRL file was written gives the next CRL the same number
  (`CaLedger.NumberingIff`, `CaLedger.NumberReused`).
- The ledger recognises duplicates as text, so two spellings record one integer twice
  (`CaLedger.RevokeKeepsDistinctIff`, `CaLedger.TwoSpellingsRecorded`); on canonical text it does not happen
  (`CaLedger.CanonicalKeepsDistinct`).
- The CRL check fails open: a list with a bad signature has no effect on the verdict
  (`Verification.UncheckedCrlIsIgnored`), and a list for which no issuer is known is used without a signature check
  (`Verification.UnknownIssuerIsTrusted`, `Verification.IssuerFoundIff`).
- The Android upload loop overflows a 32-bit offset above 255 chunks of 8 MiB (`UploadClient.UploadBytesKotlin`).
- Without unique serials the status on the public page can depend on map order
  (`Revocation.RevokedForEveryLookupIff`).
- Evicting limiter entries is noticeable if a request lingers more than 12 minutes between stamping its entry and
  asking the bucket (`Limiter.LingeringRequestIsVisible`); exactly, it is invisible when every dropped bucket
  is full (`Limiter.SweepInvisibleIff`).
- A PIN other than the current one opens the envelope exactly when it derives the same PIN key; a 32-byte key
  cannot exclude that for all PINs (`Envelope.UnwrapIff`). An empty current PIN accepts any PIN. Changing the
  PIN can report an error after the file was re-wrapped, when the state file is not saved (`Envelope.Vault.SetPin`).
- A document without pages makes the stamp placement index out of range (`Stamp.PlaceStamps`).

## Model

| member | source | states |
|---|---|---|
| Hex.RoundTrip | tools/ca-admin/main.go:307 | parsing the hexadecimal print of any serial, of any size and sign, gives the serial back |
| Hex.CanonicalIff | tools/ca-admin/castore.go:297 | a text is the print of `n` if and only if it is canonical and parses to `n` |
| Hex.ParseIff | tools/ca-admin/main.go:307 | a text parses if and only if, after at most one sign, there is at least one hexadecimal digit and nothing else; what the sign does |
| Hex.DigitValueIff | tools/ca-admin/main.go:307 | the sixteen digits, in either case |
| CaLedger.ReasonFollowsRfc | tools/ca-admin/main.go:39-49 | a reason text has a code if and only if section 5.3.1 of RFC 5280 gives it that code, for all its reasons but two |
| CaLedger.CaAdmin.Revoke | tools/ca-admin/main.go:304-335 | the ledger gains exactly the one revocation, or nothing in each error case, with the reply that names the case |
| CaLedger.RevokeOutcomeIff | tools/ca-admin/main.go:304-335 | which answer a revocation gets, exactly, and the one entry a recorded one adds |
| CaLedger.CaAdmin.Publish | tools/ca-admin/main.go:349-376 | for any ledger file and any validity: what is signed, written and saved under each fault; an unparseable serial or a negative validity stops it before anything is written |
| CaLedger.NewCRLDetailed | core/labpki/labpki.go:171-195 | fails exactly on a nil serial or a next update before this one; otherwise entry by entry the serial, reason and time of the ledger, with default validity and default time |
| CaLedger.SoundLedgerIsSigned | tools/ca-admin/main.go:357-366 | a ledger made by the commands yields its listing, if and only if the validity is not negative |
| CaLedger.RunKeepsInv | tools/ca-admin/main.go:322-372 | over every run of commands with every I/O failure: sound ledger, numbering by saved publications, CRLs a chain of prefixes |
| CaLedger.NumberingIff | tools/ca-admin/main.go:362-372 | published numbers are 1, 2, 3, … if and only if every publication but the last had its ledger saved |
| CaLedger.NumberReused | tools/ca-admin/main.go:367-372 | a run in which two CRLs share a number |
| CaLedger.PublicationListsLedger | tools/ca-admin/main.go:357-366 | each CRL lists exactly the ledger's revocations in order with their reason codes, and every earlier CRL is a prefix of it; a negative validity changes nothing |
| CaLedger.RevokedThenListed | tools/ca-admin/main.go:307-329 | revoking a printed serial, new or already there, then publishing lists that integer |
| CaLedger.TextIdentifiesSerial | tools/ca-admin/main.go:322-326 | on canonical text, textual equality is equality of serials |
| CaLedger.RevokeKeepsDistinctIff | tools/ca-admin/main.go:322-329 | a ledger of distinct integers stays one if and only if the text is refused or no recorded text spells the same integer |
| CaLedger.CanonicalKeepsDistinct | tools/ca-admin/main.go:322-329 | with canonical text no integer is ever recorded twice |
| CaLedger.TwoSpellingsRecorded | tools/ca-admin/main.go:322-329 | revoking "a" and then "A" records and lists the integer 10 twice |
| Verification.FirstListed | core/certutil/certutil.go:212-218 | the first entry of a serial; absent if and only if no entry carries it |
| Verification.ValidateCRL | core/certutil/certutil.go:191-220 | the search loop returns the verdict of the first matching entry, staleness and signature status, or an error for a list that does not parse or check |
| Verification.VerifyPDF | core/verification/verify.go:174-242 | the result loop computes the per-signature verdicts in order and their conjunction, with every error case |
| Verification.SignatureValidIff | core/verification/verify.go:187-238 | a signature is valid if and only if it has a certificate, is valid by itself, is ML-DSA when required, and is not listed in a CRL that passed its check; a listed one is marked revoked |
| Verification.ValidIff | core/verification/verify.go:174-242 | a document is valid if and only if it opens within the size limit, has a signature, and all signatures are sound |
| Verification.MoreRevocationsNeverValidate | core/verification/verify.go:214-227 | a CRL that strikes out more never turns an invalid verdict valid |
| Verification.UncheckedCrlIsIgnored | core/verification/verify.go:217-219 | a CRL that does not pass its check leaves validity as it would be without one |
| Verification.UnknownIssuerIsTrusted | core/verification/verify.go:214-227 | without a known issuer any parseable list naming the serial strikes the signature out, unsigned or not |
| Verification.IssuerFoundIff | core/verification/verify.go:306-313 | the issuer found is `c` if and only if `c` is the first supplied certificate whose subject is the signer's issuer; none if and only if there is none |
| Verification.PassesCheckIff | core/certutil/certutil.go:206-211 | a list passes its check if and only if it parses and the signer's issuer, if supplied, signed it |
| Verification.CrlVerdictIff | core/certutil/certutil.go:191-220 | exactly when the check errs, reports revoked (and since when), and reports stale |
| Verification.SignatureReportIff | core/verification/verify.go:187-238 | the rest of a signature's report: certificate fields, revocation, and exactly when each note is made |
| Verification.DocumentReportIff | core/verification/verify.go:174-242 | exactly when there is no report; otherwise the hash, one report per signature in order, an error exactly without signatures |
| Verification.PublicIdIs | core/verification/verify.go:77-82 | the public id of a signature is `id` if and only if its contact is the prefix followed by it |
| Uploads.LiveSessionIsPrefix | server/internal/api/uploads.go:94-122 | under any interleaving of creations, appends, partial copies, discards and reaping: the file of a live session has the recorded size, at most cap+1, is a prefix of the document all writers send, and is within the cap once no handler is discarding it |
| Uploads.StepKeepsPrefixes | server/internal/api/uploads.go:94-115 | one step by an honest writer keeps every file a prefix of its document |
| Uploads.StepKeepsPending | server/internal/api/uploads.go:105-122 | a live session over the cap always has a handler about to discard it, unless a copy fails over the cap |
| Uploads.RunKeeps | server/internal/api/uploads.go:52-122 | all three invariants over whole runs |
| Uploads.ChunkWithinCapIff | server/internal/api/uploads.go:137-156 | one chunk handler leaves all sessions within the cap if and only if its copy does not fail on the byte over it |
| Uploads.OverCapSessionSurvives | server/internal/api/uploads.go:105-113 | for every cap, a delivery after which a live session is over it |
| Uploads.ChunkOutcomeIff | server/internal/api/uploads.go:137-156 | which reply a chunk gets, exactly, and what the sessions and files are then; nobody but the owner of a live session changes anything |
| Uploads.CopiedCountIff | server/internal/api/uploads.go:105 | the copy moves as much as body, limit and failure allow |
| Uploads.ReapedIff | server/internal/api/uploads.go:52-63 | a live session survives a tick if and only if it was written within two hours, with its file |
| Uploads.StepsAreOperations | server/internal/api/uploads.go:52-122 | the interleaved steps of a handler, uninterrupted, are the operations |
| Uploads.UploadManager.Create | server/internal/api/uploads.go:65-81 | a new empty session and file, nothing else changed |
| Uploads.UploadManager.AppendChunk | server/internal/api/uploads.go:94-115 | the file, size and reply in each of the five outcomes |
| Uploads.UploadManager.Reap | server/internal/api/uploads.go:52-63 | exactly the sessions idle for more than two hours go, with their files |
| Uploads.UploadManager.HandleChunk | server/internal/api/uploads.go:137-156 | the chunk endpoint as a whole, with the discard of an oversized session |
| UploadClient.PatchAdvances | server/internal/api/uploads.go:94-115 | a success reply to the next chunk means the server holds exactly the document up to the chunk's end |
| UploadClient.UploadBytesGo | apps/windows/internal/apiclient/client.go:339-371 | terminates; success means the server's file is the document, whatever the network did; failure leaves a prefix; without faults it succeeds if and only if the document fits |
| UploadClient.UploadBytesKotlin | apps/android/app/src/main/java/id/example/pqcsign/net/ApiClient.kt:188-201 | the same with 32-bit offsets: without faults it succeeds if and only if the document fits and has at most 255 chunks |
| Tiers.Normalise | server/internal/api/api.go:147-158 | the limits end up ordered if and only if the upload limit is not negative; fitting limits are kept; ordered limits are a fixed point |
| ObjectKey.OwnerOfKey | server/internal/api/handlers.go:415 | an object key determines the public id it was made for |
| ObjectKey.DecimalRoundTrip | server/internal/api/handlers.go:415 | the year in a key is a decimal numeral without leading zeros |
| ObjectKey.TwoDigitsRoundTrip | server/internal/api/handlers.go:415 | the month in a key has two places |
| Store.Memory.CreateAccount | server/internal/store/memory.go:50-69 | refused exactly for a taken e-mail; otherwise both indexes updated |
| Store.Memory.CertificateByDevice | server/internal/store/memory.go:291-305 | a certificate of the device with the latest start, none exactly when it has none |
| Store.Memory.CertificatesByAccount | server/internal/store/memory.go:307-318 | exactly the account's certificates, each once, oldest first |
| Store.Memory.CertificateBySerial | server/internal/store/memory.go:320-329 | a certificate of that serial, none exactly when there is none |
| Store.Memory.CreateSignature | server/internal/store/memory.go:383-392 | refused exactly when the public id has a record; never overwrites one |
| ReceiverInvariant.StrictVerifyIff | server/internal/api/verify.go:27-93 | the acceptance guard passes exactly the acceptable documents (one sound signature naming this reservation, by an active certificate of its account and device) and reports the matched row |
| HandlerLaws.BindIff | server/internal/api/handlers.go:283-310 | a certificate is bound if and only if it parses, is ML-DSA, no CA, for documents, in date, chains to the root and holds the CSR's key; the row it then gets; a refusal changes nothing |
| HandlerLaws.EnrollIff | server/internal/api/handlers.go:146-187 | a CSR is enrolled if and only if it parses and the device is the caller's; a certificate comes with it if and only if the account is active and the CA delivered a bindable one |
| HandlerLaws.ReserveIff | server/internal/api/handlers.go:346-381 | a reservation is made if and only if the named device is the caller's, active, and its newest certificate is active; the row it then gets; a refusal changes nothing |
| HandlerLaws.SubmitIff | server/internal/api/handlers.go:383-498 | an open reservation gets a record if and only if it is the caller's and the document sent is too large to verify or acceptable; the record and the whole new state then; a refusal changes nothing |
| HandlerLaws.StampIff | server/internal/api/stamp.go:40-90 | stamping uses up an upload if and only if reservation, certificate, account, ownership and size allow it |
| HandlerLaws.RevokeIff | server/internal/api/handlers.go:312-323 | the named certificate is revoked and no other row is touched; refused only for an unknown id |
| HandlerLaws.ReportedLostIsInert | server/internal/api/handlers.go:203-216 | only the owner's report makes a device lost, and over any run after it the device gains no reservation and no accepted record |
| HandlerLaws.LostDeviceIsInert | server/internal/api/handlers.go:362-365 | the same from any state in which the device is lost; it stays lost |
| HandlerLaws.DisableRowsIff | server/internal/api/accounts.go:251-289 | exactly the account's certificates are revoked and exactly its devices that carried an active one are lost |
| HandlerLaws.CascadeLedgerIff | server/internal/api/devissue.go:76-89 | the CA ledger gains exactly the serials of the active certificates whose call got through, as cessation of operation |
| HandlerLaws.CrlAfterDisable | server/internal/api/accounts.go:268-273 | the server's CRL changes if and only if something was revoked and the CA delivered a list, and then is its ledger's, one number on |
| HandlerLaws.AccountStepIff | server/internal/api/accounts.go:41-314 | for each account handler, when it is refused and the role and status it leaves; no other account is touched |
| HandlerLaws.RolesAreForLife | server/internal/api/api.go:198-230 | over any run there is at most one super admin, never disabled, removed or replaced |
| HandlerLaws.SmallStepsIff | server/internal/api/handlers.go:112-338 | adding a device, approving an enrolment and importing a CRL |
| HandlerLaws.IssueIff | server/internal/api/handlers.go:257-310 | an admin's certificate is bound if and only if the enrolment exists and the certificate is bindable |
| HandlerLaws.UploadStepsIff | server/internal/api/uploads.go:52-135 | opening an upload and a tick of the reaper, and that neither touches anything else |
| ReceiverInvariant.BindKeeps | server/internal/api/handlers.go:283-310 | binding keeps every certificate trusted (it chained within its validity) and tied to the key of the CSR its own account and device enrolled |
| ReceiverInvariant.ReserveKeeps | server/internal/api/handlers.go:346-381 | reserving keeps the invariant |
| ReceiverInvariant.SubmitKeeps | server/internal/api/handlers.go:383-472 | submitting keeps the invariant |
| ReceiverInvariant.StepKeeps | server/internal/api/handlers.go:146-472 | every step of every handler keeps the invariant between all tables, and rows only grow: no record changes, no revocation or loss is undone |
| ReceiverTheorems.AcceptedSignaturesTrace | server/internal/api/handlers.go:383-472 | in every reachable state an accepted record traces to its reservation, device, certificate and enrolled key, and its stored document has exactly one signature, made by that certificate for this reservation |
| ReceiverTheorems.SignedByEnrolledKey | server/internal/api/handlers.go:283-310 | the key that signed an accepted document is the key its account and device enrolled, where fingerprints of parsed certificates identify keys |
| ReceiverTheorems.StoredBytesMatchRecord | server/internal/api/handlers.go:415-498 | in every reachable state hash and size of a record are those of its object; accepted if and only if within the verify tier; at most one byte over the upload limit, and within it if no copy failed over the cap |
| ReceiverTheorems.StepCappedIff | server/internal/api/uploads.go:105-113 | from a state with all sessions and records within the limit, a step leaves it if and only if it is a chunk whose copy fails on the byte over the cap |
| ReceiverTheorems.AlwaysCappedIff | server/internal/api/uploads.go:94-115 | every state of a run is within the limit if and only if no copy of the run fails so |
| ReceiverTheorems.RecordOverLimitIff | server/internal/api/handlers.go:478-498 | a submission records a document over the limit if and only if it names an upload session that is over it |
| Scenario.OverLimitRun | server/internal/api/uploads.go:105-113 | from every state with an open reservation, for all ordered limits: three steps that record a document one byte over the limit |
| Scenario.OverLimitRecordIsReachable | server/internal/api/handlers.go:478-498 | for all ordered limits, such a record from an empty server |
| Scenario.AcceptanceIsReachable | server/internal/api/handlers.go:383-472 | an accepted record is reachable in a world where fingerprints identify keys |
| ReceiverTheorems.RecordsAreFinal | server/internal/api/handlers.go:461-466 | over any run a record never changes and its reservation stays accepted |
| ReceiverTheorems.ResubmissionIsIdempotent | server/internal/api/handlers.go:390-396 | submitting to a completed reservation returns the record and changes nothing |
| ReceiverTheorems.DisableIsExact | server/internal/api/accounts.go:251-314 | no active certificate is left, the reply counts those that were active, other accounts' certificates and devices are untouched |
| ReceiverTheorems.DormantStaysQuiet | server/internal/api/accounts.go:277-314 | over any run without reactivation a dormant account stays dormant and gains neither reservation nor accepted signature |
| ReceiverTheorems.DisabledAccountIsInert | server/internal/api/accounts.go:277-314 | the same from the moment of disabling or deleting |
| ReceiverTheorems.DisabledMayStillStore | server/internal/api/handlers.go:444-459 | what a disabled account can still do: a store-only record for an open reservation |
| Revocation.StatusOnlyWorsens | server/internal/api/handlers.go:597-610 | with unique serials the public status only moves active, lost, revoked over any run; store-only always reads not verified |
| Revocation.StatusShownIff | server/internal/api/handlers.go:597-610 | with unique serials an accepted record reads revoked if and only if its certificate is, lost if and only if not revoked and its device is lost, active if and only if neither |
| Revocation.ReportedLostShows | server/internal/api/handlers.go:203-216 | after the owner's report a record of the device reads lost or revoked, in every later state |
| Revocation.RevokedForEveryLookupIff | server/internal/store/memory.go:320-329 | a record surely reads revoked if and only if every certificate of its serial is revoked |
| Revocation.DisabledSignaturesReadRevoked | server/internal/api/accounts.go:251-275 | after disabling, all accepted signatures of the account read revoked |
| Revocation.CascadeListsRevoked | server/internal/api/devissue.go:76-109 | with the CA succeeding, the server's CRL lists every certificate the cascade revoked |
| Revocation.CascadeInvalidatesDocuments | server/internal/api/accounts.go:251-273 | with the CA succeeding, every document signed with such a certificate verifies as revoked and invalid against the server's CRL if it passes its check |
| Revocation.OnceListedAlwaysRevoked | core/certutil/certutil.go:212-218 | over any CA run a serial once listed is reported revoked against every later CRL |
| Handlers.RevokedByOneMore | server/internal/api/accounts.go:253-263 | revoking one by one equals revoking the set at once, devices included |
| Handlers.Server.SubmitCsr | server/internal/api/handlers.go:146-187 | performs the enrolment step, issuing at once only for an active account |
| Handlers.Server.ReportLost | server/internal/api/handlers.go:203-216 | marks the owner's device lost, refuses others |
| Handlers.Server.BindIssuedCert | server/internal/api/handlers.go:283-310 | performs the binding step |
| Handlers.Server.Reserve | server/internal/api/handlers.go:346-381 | performs the reservation step for some newest certificate |
| Handlers.Server.SubmitDocument | server/internal/api/handlers.go:383-472 | performs the submission step: object, record, mark, discard, in every case |
| Handlers.Server.StrictVerify | server/internal/api/verify.go:27-93 | computes the acceptance guard for some serial lookup |
| Handlers.Server.DisableCascade | server/internal/api/accounts.go:251-275 | performs the cascade on store, devices, CA ledger and CRL, and returns the number revoked |
| Handlers.Server.RevokeListed | server/internal/api/accounts.go:253-267 | the cascade's loop reaches the end of the listing with exactly the active ones revoked |
| Handlers.Server.RevokeOne | server/internal/api/accounts.go:257-263 | one turn: certificate, CA ledger, device |
| Handlers.Server.PublishFresh | server/internal/api/accounts.go:268-273 | swaps in the new CRL exactly when it arrives |
| Handlers.Server.DisableAccount | server/internal/api/accounts.go:277-289 | performs the disable step |
| Handlers.Server.DeleteAccount | server/internal/api/accounts.go:291-314 | performs the delete step, tombstone included |
| Interleaving.OneRecordPerReservation | server/internal/store/memory.go:371-392 | under any interleaving of store calls: one record per public id, never changed, naming the reservation's account, device and an object written for it; an accepted reservation has its record |
| Interleaving.GoesOnIff | server/internal/api/handlers.go:385-466 | after which store calls a submission ends, exactly |
| Interleaving.AgreementIff | server/internal/api/handlers.go:431-435 | a store call keeps hash agreement if and only if it is neither a late overwrite nor a record over a replaced object |
| Interleaving.NonOverlappingSubmissionsAgree | server/internal/api/handlers.go:415-466 | if submissions of one reservation do not overlap, hashes agree, however those of different reservations interleave |
| Interleaving.OverlappingSubmissionsDisagree | server/internal/api/handlers.go:444-466 | for any two documents over the verify limit with different hashes, an interleaving that breaks agreement |
| Interleaving.DecidedRecordIff | server/internal/api/handlers.go:418-459 | a record's size is that of its bytes if and only if the document was within the verify limit when opened or nothing was appended since; its tier is the one the bytes call for unless they outgrew the limit meanwhile |
| Interleaving.GrowingUploadMisrecorded | server/internal/api/handlers.go:449-456 | a chunk arriving after the upload was opened leaves a record with the old size |
| ConcurrentReceiver.NextKeeps | server/internal/api/handlers.go:383-472 | every store call of a submission, and every other handler between two of them, keeps the relations between all tables and what each submission in flight has established |
| ConcurrentReceiver.AcceptedTraceSurvivesInterleaving | server/internal/api/handlers.go:383-472 | under any interleaving an accepted record traces to its reservation, device, certificate and enrolled key, and its hash is that of a document that certificate alone signed for this reservation |
| ConcurrentReceiver.DormantDrains | server/internal/api/verify.go:70-82 | over any interleaving without reactivation a dormant account gains no reservation, none of its submissions gets past the lookup, and each new accepted record was in the hands of one that already was |
| ConcurrentReceiver.LateAcceptanceIff | server/internal/api/handlers.go:425-443 | a dormant account can still get an accepted record for a reservation if and only if it has none and one of its submissions is past the certificate lookup |
| ConcurrentReceiver.DisableWithSubmissionsInFlight | server/internal/api/accounts.go:277-314 | the same at the moment of disabling or deleting |
| ConcurrentReceiver.UninterruptedIsAtomic | server/internal/api/handlers.go:383-472 | a submission whose store calls nothing interrupts does exactly what the atomic step does |
| Scenario.AcceptedAfterDisabling | server/internal/api/handlers.go:425-443 | a run in which an account is disabled and then gets an accepted signature |
| Caption.WrapText | server/internal/api/stamppng.go:218-234 | the loop computes the greedy wrapping |
| Caption.WrappedIsBestWrapping | server/internal/api/stamppng.go:218-234 | all words in order, each line one word or within the width, and no such wrapping has fewer lines for any measure where a sub-run is never wider |
| Caption.GreedyIsShortest | server/internal/api/stamppng.go:218-234 | no wrapping is shorter than the greedy one |
| Caption.LinesRejoin | server/internal/api/stamppng.go:218-234 | joining the lines by spaces gives the text back |
| Caption.WrapBlock | server/internal/api/stamppng.go:168-179 | every caption line wrapped in its face, in order |
| Caption.LineInBlock | server/internal/api/stamppng.go:168-179 | every caption line is in the block, wrapped, in its face, right after the lines before it |
| Caption.LineHeightIff | server/internal/api/stamppng.go:181-182 | a line is the first whole number above four thirds of the font's height |
| Caption.BaselineIff | server/internal/api/stamppng.go:192-196 | where each baseline is, to the pixel |
| Caption.EmptyTextIff | server/internal/api/stamppng.go:219-222 | one empty line if and only if there are no words |
| Caption.DrawCaption | server/internal/api/stamppng.go:155-199 | the largest ladder size whose block fits, else the smallest; the lines in order; the block inside its box if and only if some size fits, and then centred to within a pixel |
| Caption.PlaceLines | server/internal/api/stamppng.go:192-196 | each line one line height below the one before |
| Caption.BaselinesInside | server/internal/api/stamppng.go:188-196 | a block that fits keeps every baseline in the box |
| Stamp.PlaceStamps | server/internal/api/stamp.go:239-271 | succeeds if and only if there is a placement and each lands on a page of positive size; the image of each placement is then on the page it asks for, or the last for a number out of range, after those of the earlier placements there |
| Stamp.OneImageEach | server/internal/api/stamp.go:239-271 | the images of all pages add up to the placements |
| Stamp.ImageOfPlacement | server/internal/api/stamp.go:241-270 | the place of a placement's image among its page's |
| Stamp.PlacedAsAsked | server/internal/api/stamp.go:247-263 | the box has the width asked, within its bounds, and stands where asked, pushed back only as far as the page needs |
| Stamp.DrawableIff | server/internal/api/stamp.go:247-257 | a box is drawable if and only if the page has positive dimensions |
| Stamp.PlacedOnPage | server/internal/api/stamp.go:247-270 | the unrounded box is on the page with the exact aspect; rounded, it overshoots by at most 0.01 |
| Stamp.Round2 | server/internal/api/stamp.go:355 | rounding moves a value by at most 0.005 |
| Stamp.Round2Iff | server/internal/api/stamp.go:355 | which hundredth it is, halves going away from zero |
| Stamp.PlacementScreen.ApplyBoxFromFracs | apps/android/app/src/main/java/id/example/pqcsign/MainActivity.kt:493-514 | shows the box and writes its fractions back; a display without size changes nothing |
| Stamp.PreviewInside | apps/android/app/src/main/java/id/example/pqcsign/MainActivity.kt:493-514 | no clamping range is empty, and the box is inside the display with the stamp's aspect |
| Stamp.PreviewIsIdempotent | apps/android/app/src/main/java/id/example/pqcsign/MainActivity.kt:493-514 | applying the preview step again changes nothing |
| Stamp.PreviewAgreesWithServer | server/internal/api/stamp.go:247-263 | for any box the preview leaves, the server's box has the same top-left corner and is contained in it |
| Limiter.IdleIsFull | server/internal/api/ratelimit.go:51-62 | an entry old enough to be swept has a full bucket |
| Limiter.EvictionIsUnobservable | server/internal/api/ratelimit.go:29-62 | for every positive rate and every trace, the decisions are those of buckets kept for ever |
| Limiter.SweepInvisibleIff | server/internal/api/ratelimit.go:51-62 | a sweep is invisible to every later trace if and only if every bucket it drops is full |
| Limiter.LingeringRequestIsVisible | server/internal/api/ratelimit.go:39-49 | a trace with one lingering request where eviction shows |
| Limiter.RateBound | server/internal/api/ratelimit.go:29-49 | any window of length T admits at most burst + rate·T requests of a key |
| Limiter.BurstIff | server/internal/api/ratelimit.go:29-37 | the burst is a sixth of the rate, rounded down, but at least three |
| Limiter.FreshKeyGetsBurst | server/internal/api/ratelimit.go:39-49 | of any number of requests at once a new key gets exactly its burst |
| Limiter.LimiterSet.Allow | server/internal/api/ratelimit.go:39-49 | one request: entry, stamp and decision |
| Limiter.LimiterSet.SweepOnce | server/internal/api/ratelimit.go:51-62 | exactly the entries idle for over 15 minutes go |
| LimiterInterleaving.ConcurrentEvictionIsUnobservable | server/internal/api/ratelimit.go:39-62 | however requests and sweeps overlap, decisions are those of buckets kept for ever, within the rate bound |
| LimiterInterleaving.NextKeeps | server/internal/api/ratelimit.go:39-62 | a request that may still ask always holds the entry that is in the map |
| LimiterInterleaving.UninterruptedIsSequential | server/internal/api/ratelimit.go:39-49 | a request that nothing interrupts is one of the sequential limiter |
| Envelope.UnwrapIff | apps/windows/internal/keystore/envelope.go:100-183 | unwrapping with a PIN gives the key back if and only if there was no PIN or that PIN derives the same PIN key; otherwise it fails |
| Envelope.UnwrapNeeds | apps/windows/internal/keystore/envelope.go:147-183 | for any blob whatever, exactly when it unwraps and to which key |
| Envelope.HistoryKeepsKey | apps/windows/internal/appcore/appcore.go:451-463 | after any history of PIN changes, refused ones included, the PIN in force opens to the key first saved, and another opens only by deriving the same PIN key |
| Envelope.RewrappedIff | apps/windows/internal/appcore/appcore.go:451-463 | a PIN change replaces the file exactly when the old PIN opens it, the key is not empty and the save lands |
| Envelope.IdealCryptoExists | apps/windows/internal/keystore/envelope.go:100-183 | the assumed laws can be met |
| Envelope.Protect | apps/windows/internal/keystore/envelope.go:100-143 | the blob made from the key and PIN; of all buffers made, on every path, each is zero on return or holds the sealed wrapping key |
| Envelope.Unprotect | apps/windows/internal/keystore/envelope.go:147-183 | the key in a new buffer; every other buffer made, on every path, is zero on return |
| Envelope.Zero | apps/windows/internal/keystore/envelope.go:186-190 | every byte is zero |
| Envelope.Vault.SaveKey | apps/windows/internal/keystore/store.go:78-84 | the file is replaced whole or not at all |
| Envelope.Vault.LoadKey | apps/windows/internal/keystore/store.go:88-94 | the key exactly when the file exists and opens |
| Envelope.Vault.SetPin | apps/windows/internal/appcore/appcore.go:451-463 | when the file, the PIN flag and the reply change; of all buffers made, the private key's included, each is zero on return or holds the sealed wrapping key |
| Migrations.ListMigrations | server/internal/store/postgres.go:31-37 | exactly the embedded files, each under its version, in path order |
| Migrations.PlanIsUnique | server/internal/store/postgres.go:31-37 | the same files give every server the same list, each version once |
| Migrations.NextKeeps | server/internal/store/postgres.go:36-61 | one step of any of several runners keeps applied versions a prefix of the list and the schema its fold |
| Migrations.MigrationsConverge | server/internal/store/postgres.go:24-63 | through any history of concurrent starts, crashes and restarts: always a prefix; once a runner has returned, each migration exactly once in order, and nothing changes any more |
| Migrations.RestartCompletes | server/internal/store/postgres.go:24-63 | if the scripts run, a server starting against the database left by any history can bring it to its end |
| Migrations.GivingUp | server/internal/store/postgres.go:44-60 | a runner that gives up leaves the database as its last commit left it |
| Migrations.ApplyInOrder | server/internal/store/postgres.go:36-61 | the loop under every fault: a prefix remains; success means all; a complete database is untouched; without faults it succeeds if the scripts run |
| Migrations.ApplyMigrations | server/internal/store/postgres.go:24-63 | the same from the embedded files, for their one plan |

## Left out

- Cryptography, X.509, CMS and PDF parsing, page stamping, QR and font rendering: foreign code, unconstrained functions here.
- HTTP routing, JSON, multipart, form parsing of placements, static pages and user interface: plumbing.
- The audit log, names, labels and times shown to people: no decision reads them.
- Login, tokens and session validity: a token outlives a status change, so the theorems are about the store.
- Reservation expiry: it is written and never read.
- Object storage, SQL text, containers, backup and command-line flags: I/O. The ledger file is taken to be saved whole or not at all.
- Failing reads and object writes during a submission: the in-memory store has none; each only ends the handler before a record exists.
- Body limits of the CSR and CRL endpoints: they only refuse more.
- Overflow of 64-bit sizes and CRL numbers: out of reach of real inputs; the 32-bit Android offsets are modelled.
- Floating-point rounding: layout and token buckets are over real numbers; two-decimal rounding is explicit, pixel rounding of the preview is not.
- Splitting a caption into words: the wrapper is given the words.
- Monotone enrolment status: approving moves an issued enrolment back to approved, so it does not hold.
- Agreement of database revocation with the CRL outside the cascade: revoking a single certificate does not tell the CA.
- Store-call granularity of handlers other than submission and upload: between the store calls of a submission they run whole.
- A CA certificate that may not sign CRLs: the refusals of the X.509 library that depend on the CA's own certificate and key.
- Liveness of large verified submissions: the verifier stops at 64 MiB, below the default verify tier.
- Client re-enrolment: a client cannot tell a missing device from one not issued yet.
- Methods for registration, approve, enable, stamp, revoke, CRL import and the admin handlers: each is one or two store calls, and a step of the state machine with its law in `HandlerLaws`.
