# Binary signature validation and triphase post-processing, in Dafny

This project models two pieces of decision logic from the `@firma` client and
its triphase signing server, and proves properties of them.

**`ValidateBinarySignature`** (module `ValidateBinarySignature`,
`validate_binary_signature.dfy`). It validates a CMS signature (RFC 5652) or a
CAdES signature (ETSI TS 101 733), optionally against the data that was signed,
and returns a `SignValidity` verdict. A verdict is a detail type `OK | KO | UNKNOWN`
plus an optional `VALIDITY_ERROR`. The steps:

- A null signature is a caller error.
- The CMS signer is tried first, then the CAdES signer. Bytes neither recognises are `KO`.
- Supplied data takes precedence. Without it, the data embedded in the signature is used; if there is none, the verdict is `UNKNOWN`/`NO_DATA`.
- Each SignerInfo (section 5.3 of RFC 5652) is checked in iteration order: certificate lookup by sid, signature verification (section 5.6, which may consult the whole SignedData), digest-algorithm OID mapped to a name through a closed six-entry table, and the recomputed digest compared with the message-digest attribute (section 11.2).
- After all signers pass, the sizes of the `certificates` and `crls` collections of SignedData (section 5.1) are compared between the two views the Java code reads them through.

The Java code signals each failure by throwing an exception, and `validate`
maps each exception type to a verdict in its catch clauses. Here an
`Exception` datatype plays that role (`Option<Exception>` for "returned or
threw"), and `VerdictOf` is the catch mapping. `Verification` and
`FirstSignerFailure` specify `verifySignatures`. The method `VerifySignatures`
is its loop, with early return, proved equal to that specification. `Validate`
is `validate` as a function.

Parsing, certificate lookup, signature verification, hashing, format
recognition and embedded-data extraction are the cryptographic provider's and
the format signers' work. They are uninterpreted function-typed fields of the
`Provider` and `Signers` datatypes. So every property holds whatever those
collaborators do. A collaborator that the verdict does not depend on (for
example the provider, for unrecognised bytes) was never consulted.

**`SingleSignPostProcessor`** (module `SingleSignPostProcessor`,
`single_sign_post_processor.dfy`). It completes one sign of a triphase batch:

- It rejects a null or empty certificate chain.
- `cleanTriphaseData` keeps only the session entry (`TriSign`) whose id is the sign's id. It puts a copy of that entry into a new single-entry `TriphaseData`.
- It dispatches `SIGN` to the pre-processor's post-sign entry point and `COSIGN` to its post-co-sign entry point. Both get the cleaned data, serialised. Any other sub-operation is unsupported.
- It selects the pre-processor for the sign; an exception there ends the call.
- It writes the completed document (even a `null` one) once to the temporary store.

`PostProcess` is the pure specification of the outcome. The method
`DoPostProcess` runs the steps against a `TempStore` object, whose `writes`
field logs `(document, sign, batchId)` store calls. Its contract says the log
grows by exactly one write on success and is unchanged on every failure. The
pre-processor (selected per sign) and the XML serialisation of `TriphaseData`
are uninterpreted fields of `Collaborators`.

`common.dfy` holds the byte type and the `Option`/`Result` datatypes. Java's
`null` is `None`; a thrown exception is `Err`.

In these points the model follows the code:

- When `certStore.getCertificates(sid)` throws `CertStoreException`, the verdict is `CERTIFICATE_PROBLEM`. But when the lookup simply finds no certificate, `certIt.next()` throws `NoSuchElementException` and the verdict is generic `KO` (constructor `NoCertificate`). It is not a store error.
- Unrecognised bytes give `KO` with no error detail. That is the same verdict as a generic verification failure; there is no separate "invalid format" verdict.
- A certificate-count mismatch gives `CERTIFICATE_PROBLEM`, the same error as an unreadable store. Only the sizes of the collections are compared, never their members.
- `doPostProcess` returns nothing. It does not return the store's answer.
- `getTriSign` (of `TriphaseData`, which is not part of this model) is modelled as the first entry in list order with the requested id.
- A SignedData with no SignerInfos passes the signer loop trivially, so its verdict is `OK` whenever the two size comparisons agree.
- The pre-processor is selected (and may fail) after the session data is cleaned and before the sub-operation is examined. A `null` document returned by a pre-processor entry point is stored as it is.

## Model

| member | source | states |
|---|---|---|
| `ValidateBinarySignature.DigestNameOf` | SimpleAfirma/src/main/java/es/gob/afirma/signature/ValidateBinarySignature.java:134-155 | a found name is the one whose OID is the input; `None` (NoSuchAlgorithmException) exactly when no table entry has that OID |
| `ValidateBinarySignature.DigestTableRoundTrip` | SimpleAfirma/src/main/java/es/gob/afirma/signature/ValidateBinarySignature.java:136-153 | each of MD2, MD5, SHA1, SHA256, SHA384, SHA512 is found from its own OID, so the if-else chain shadows no entry |
| `ValidateBinarySignature.VerdictOf` | SimpleAfirma/src/main/java/es/gob/afirma/signature/ValidateBinarySignature.java:69-90 | every caught exception gives `KO`, never `OK`; the error detail is absent exactly for the final `catch (Exception)` |
| `ValidateBinarySignature.VerdictOfInjective` | SimpleAfirma/src/main/java/es/gob/afirma/signature/ValidateBinarySignature.java:69-90 | distinct exceptions give distinct verdicts: no catch clause absorbs another's cause |
| `ValidateBinarySignature.VerifySignatures` | SimpleAfirma/src/main/java/es/gob/afirma/signature/ValidateBinarySignature.java:111-170 | the signer loop with early exit throws exactly what `Verification` specifies: a parse failure, else the first failing signer's exception, else the certificate size check, then the CRL size check |
| `ValidateBinarySignature.CheckSigner` | SimpleAfirma/src/main/java/es/gob/afirma/signature/ValidateBinarySignature.java:121-161 | without data a signer passes exactly when its certificate is found and its signature verifies; `CheckSignerPasses` and `SignerFailureVerdicts` specify it with data |
| `ValidateBinarySignature.FirstSignerFailure` | SimpleAfirma/src/main/java/es/gob/afirma/signature/ValidateBinarySignature.java:120-162 | an exception it reports is that of some signer, and a failing first signer decides it; `FirstSignerFailureNone`, `FailingSignerDecides`, `FailureComesFromFirstFailingSigner` and `LaterSignersNotExamined` specify it fully |
| `ValidateBinarySignature.StoreStructureCheck` | SimpleAfirma/src/main/java/es/gob/afirma/signature/ValidateBinarySignature.java:164-169 | nothing is thrown exactly when both size pairs agree; a certificate size mismatch throws `CertStoreException`; equal certificate sizes with a CRL size mismatch throw `CRLException` |
| `ValidateBinarySignature.Verification` | SimpleAfirma/src/main/java/es/gob/afirma/signature/ValidateBinarySignature.java:111-170 | an unparseable signature (CMSException) throws the generic exception; a normal return implies the signature parsed and both size pairs agree; `VerifySignatures`, `FirstFailingSignerDecidesVerdict`, `StoreChecksFollowSigners` and `OkExactlyWhenAllChecksPass` specify the rest |
| `ValidateBinarySignature.RecognisedFormat` | SimpleAfirma/src/main/java/es/gob/afirma/signature/ValidateBinarySignature.java:50-56 | bytes the CMS signer recognises are CMS; otherwise bytes the CAdES signer recognises are CAdES; no format exactly when neither recognises them |
| `ValidateBinarySignature.SelectData` | SimpleAfirma/src/main/java/es/gob/afirma/signature/ValidateBinarySignature.java:61-67 | supplied data is selected as it is; without it, the embedded content is selected, no embedded data is `Absent` and an extraction exception is `Failed` |
| `ValidateBinarySignature.Validate` | SimpleAfirma/src/main/java/es/gob/afirma/signature/ValidateBinarySignature.java:45-93 | a caller error exactly for a null signature; `OK` never carries an error; `UNKNOWN` always carries `NO_DATA` and happens only without supplied data; `KO` never carries `NO_DATA`; the lemmas below specify each verdict |
| `ValidateBinarySignature.CheckSignerPasses` | SimpleAfirma/src/main/java/es/gob/afirma/signature/ValidateBinarySignature.java:121-161 | with data, a signer passes exactly when its certificate is found, its signature verifies, it names a digest OID in the table, and the digest of the data equals its stored content digest |
| `ValidateBinarySignature.SignerFailureVerdicts` | SimpleAfirma/src/main/java/es/gob/afirma/signature/ValidateBinarySignature.java:122-159 | unreadable store gives `CERTIFICATE_PROBLEM`; an expired certificate `CERTIFICATE_EXPIRED`; a not-yet-valid one `CERTIFICATE_NOT_VALID_YET`; an unknown signature algorithm `ALGORITHM_NOT_SUPPORTED`; no certificate, a failed signature check, a malformed SignerInfo (CMSException) or a missing digest algorithm give `KO` with no detail; an unknown digest OID gives `ALGORITHM_NOT_SUPPORTED`; a digest mismatch gives `NO_MATCH_DATA` |
| `ValidateBinarySignature.FirstSignerFailureNone` | SimpleAfirma/src/main/java/es/gob/afirma/signature/ValidateBinarySignature.java:120-162 | the loop ends normally exactly when every signer passes |
| `ValidateBinarySignature.FailingSignerDecides` | SimpleAfirma/src/main/java/es/gob/afirma/signature/ValidateBinarySignature.java:120-162 | if signer k fails and all before it pass, the loop throws signer k's exception, whatever the later signers hold |
| `ValidateBinarySignature.FailureComesFromFirstFailingSigner` | SimpleAfirma/src/main/java/es/gob/afirma/signature/ValidateBinarySignature.java:120-162 | every exception the loop throws is that of some signer all of whose predecessors passed |
| `ValidateBinarySignature.LaterSignersNotExamined` | SimpleAfirma/src/main/java/es/gob/afirma/signature/ValidateBinarySignature.java:120-162 | once a prefix of signers fails, appending any further signers changes nothing |
| `ValidateBinarySignature.NullSignatureIsCallerError` | SimpleAfirma/src/main/java/es/gob/afirma/signature/ValidateBinarySignature.java:46-48 | a null signature gives the caller error, not a verdict, whatever the collaborators |
| `ValidateBinarySignature.UnrecognisedIsKo` | SimpleAfirma/src/main/java/es/gob/afirma/signature/ValidateBinarySignature.java:50-56 | bytes recognised by neither signer give `KO` with no detail, for every provider (nothing is verified) |
| `ValidateBinarySignature.CmsTriedFirst` | SimpleAfirma/src/main/java/es/gob/afirma/signature/ValidateBinarySignature.java:50-56 | bytes the CMS signer recognises are handled as CMS, and the verdict is the same whatever the CAdES signer would say |
| `ValidateBinarySignature.NoDataIsUnknown` | SimpleAfirma/src/main/java/es/gob/afirma/signature/ValidateBinarySignature.java:62-66 | no supplied data and no embedded data give `UNKNOWN` with `NO_DATA`, for every provider (verification is not reached) |
| `ValidateBinarySignature.EmbeddedDataIsChecked` | SimpleAfirma/src/main/java/es/gob/afirma/signature/ValidateBinarySignature.java:62-68 | without supplied data, the verdict is that of verifying against the content embedded in the signature, extracted by the signer that recognised it |
| `ValidateBinarySignature.ExtractionFailureIsKo` | SimpleAfirma/src/main/java/es/gob/afirma/signature/ValidateBinarySignature.java:62-89 | without supplied data, an exception while extracting the embedded content gives `KO` with no detail, for every provider |
| `ValidateBinarySignature.UnparseableIsKo` | SimpleAfirma/src/main/java/es/gob/afirma/signature/ValidateBinarySignature.java:111-115 | a recognised signature the provider cannot parse as SignedData (CMSException) gives `KO` with no detail, through the final catch of `validate` |
| `ValidateBinarySignature.SuppliedDataTakesPrecedence` | SimpleAfirma/src/main/java/es/gob/afirma/signature/ValidateBinarySignature.java:62-68 | with supplied data the verdict is that of verifying against those bytes (so the digests are compared), and `getData` is not consulted |
| `ValidateBinarySignature.FirstFailingSignerDecidesVerdict` | SimpleAfirma/src/main/java/es/gob/afirma/signature/ValidateBinarySignature.java:60-90 | with data to check against, the verdict is the catch mapping of the first failing signer's exception, whatever follows it and whatever the store sizes |
| `ValidateBinarySignature.StoreChecksFollowSigners` | SimpleAfirma/src/main/java/es/gob/afirma/signature/ValidateBinarySignature.java:164-169 | once all signers are accepted, a certificate size mismatch gives `CERTIFICATE_PROBLEM`; with equal certificate sizes, a CRL size mismatch gives `CRL_PROBLEM` |
| `ValidateBinarySignature.NoSignersDecidedBySizes` | SimpleAfirma/src/main/java/es/gob/afirma/signature/ValidateBinarySignature.java:120-169 | with no SignerInfos the verdict is the size comparisons' alone, and `OK` when both agree |
| `ValidateBinarySignature.OkExactlyWhenAllChecksPass` | SimpleAfirma/src/main/java/es/gob/afirma/signature/ValidateBinarySignature.java:60-92 | `OK` with no detail if and only if the format is recognised, there is data, the signature parses, every signer is accepted and both size pairs agree; an `OK` never carries an error |
| `SingleSignPostProcessor.IndexOf` | afirma-server-triphase-signer/src/main/java/es/gob/afirma/signers/batch/SingleSignPostProcessor.java:99 | the lookup `getTriSign` uses: the result is the first position with the id, and it equals the length when no entry has the id |
| `SingleSignPostProcessor.GetTriSign` | afirma-server-triphase-signer/src/main/java/es/gob/afirma/signers/batch/SingleSignPostProcessor.java:99 | a found entry belongs to the data and has the requested id; nothing is found exactly when no entry has that id |
| `SingleSignPostProcessor.CleanTriphaseData` | afirma-server-triphase-signer/src/main/java/es/gob/afirma/signers/batch/SingleSignPostProcessor.java:95-111 | null data gives the null-data error; with data, every error is the missing-entry error, and it happens iff no entry has the id; on success exactly one entry, with that id, equal to the first such entry of the input |
| `SingleSignPostProcessor.CleanKeepsOnlyOwnEntry` | afirma-server-triphase-signer/src/main/java/es/gob/afirma/signers/batch/SingleSignPostProcessor.java:105-110 | the cleaned data is the singleton of the entry `getTriSign` finds; no entry of any other id appears |
| `SingleSignPostProcessor.OtherSignersDoNotLeak` | afirma-server-triphase-signer/src/main/java/es/gob/afirma/signers/batch/SingleSignPostProcessor.java:99-110 | whatever other signers' entries precede or follow one's own, cleaning gives exactly the singleton of one's own entry |
| `SingleSignPostProcessor.CleanIdempotent` | afirma-server-triphase-signer/src/main/java/es/gob/afirma/signers/batch/SingleSignPostProcessor.java:95-111 | cleaning the cleaned data again changes nothing |
| `SingleSignPostProcessor.TempStore.Store` | afirma-server-triphase-signer/src/main/java/es/gob/afirma/signers/batch/SingleSignPostProcessor.java:87 | a store call appends one `(document, sign, batchId)` write to the log, the document possibly `null` |
| `SingleSignPostProcessor.PostProcess` | afirma-server-triphase-signer/src/main/java/es/gob/afirma/signers/batch/SingleSignPostProcessor.java:40-88 | a document is produced only with a non-empty chain, session data holding the sign's entry, a selected pre-processor and a `SIGN` or `COSIGN` sub-operation; the lemmas below specify each outcome |
| `SingleSignPostProcessor.DoPostProcess` | afirma-server-triphase-signer/src/main/java/es/gob/afirma/signers/batch/SingleSignPostProcessor.java:40-88 | on failure the error is `PostProcess`'s and the store log is unchanged; on success exactly one write, of the processor's output (possibly `null`) with the sign and the batchId |
| `SingleSignPostProcessor.IllegalChainRejectedFirst` | afirma-server-triphase-signer/src/main/java/es/gob/afirma/signers/batch/SingleSignPostProcessor.java:47-53 | a null or empty chain gives the illegal-argument error for any session data, null included (it is not examined) |
| `SingleSignPostProcessor.SessionDataRequired` | afirma-server-triphase-signer/src/main/java/es/gob/afirma/signers/batch/SingleSignPostProcessor.java:96-104 | with a usable chain, null session data or session data without the sign's id give their argument errors |
| `SingleSignPostProcessor.DispatchUsesCleanedEntry` | afirma-server-triphase-signer/src/main/java/es/gob/afirma/signers/batch/SingleSignPostProcessor.java:61-84 | `SIGN` is the post-sign entry point's result and `COSIGN` the post-co-sign one's, each given the serialised single cleaned entry; any other sub-operation is unsupported |
| `SingleSignPostProcessor.PreProcessorSelectedBeforeDispatch` | afirma-server-triphase-signer/src/main/java/es/gob/afirma/signers/batch/SingleSignPostProcessor.java:53-61 | a failure to select the pre-processor is the outcome, carrying its cause, whatever the sub-operation (an unsupported one included) |
| `SingleSignPostProcessor.NoCrossSignerLeakage` | afirma-server-triphase-signer/src/main/java/es/gob/afirma/signers/batch/SingleSignPostProcessor.java:53-84 | two session documents with the same entry for the sign give the same outcome, whatever other signers' entries they hold |
| `SingleSignPostProcessor.ProcessorFailurePropagates` | afirma-server-triphase-signer/src/main/java/es/gob/afirma/signers/batch/SingleSignPostProcessor.java:60-87 | an exception from the `SIGN` or `COSIGN` entry point is the outcome, carrying that exception's cause, so `DoPostProcess` writes nothing |

## Left out

- BootLoader/src/main/java/es/gob/afirma/install/Installer.java: installation and UI plumbing (dialogs, licence panel, file deletion, privileged actions), outside the decision logic.
- `Security.addProvider` (ValidateBinarySignature.java:58): a global side effect with no bearing on the verdict. The provider is assumed to offer the "Collection" store and every digest of the table. So `NoSuchAlgorithmException` from `getCertificatesAndCRLs` or `MessageDigest.getInstance` is not modelled.
- BouncyCastle parsing, `SignerInformation.verify`, CertStore lookups and hashing: uninterpreted `Provider` fields. Exceptions thrown while the two collection sizes are read (lines 164 and 167) are not modelled; the sizes are plain numbers of the `Container`.
- `MessageDigest.isEqual` is modelled as sequence equality. Its timing is not modelled.
- `AOCMSSigner`/`AOCAdESSigner` `isSign` and `getData`: uninterpreted `Signers` fields. An exception from `getData` is modelled as `ExtractionFailed`, which the final catch turns into generic `KO`.
- `TriPhasePreProcessor` implementations, `SingleSignConstants.getTriPhasePreProcessor`, `TempStoreFactory` and the store internals, and the XML form of `TriphaseData`: uninterpreted `Collaborators` fields and a write log. An `IOException` from the store itself is not modelled: every store call is recorded.
- `SingleSign.getData` is modelled as a field. Fetching the document, and any exception that fetch may throw, are not modelled.
- Aliasing: `TriSign` and `TriphaseData` are values here. That the caller's session data stays unchanged and that the copy shares nothing with it hold by construction; they are not proved as statements about the heap.
- `isSign` exceptions: `isSign` runs before the `try` (ValidateBinarySignature.java:51 and 53), so an exception from it would escape `validate`. `isSign` is modelled as a total predicate and does not throw.
- Null inputs other than those modelled: a null `sSign` (NullPointerException at SingleSignPostProcessor.java:53), a null `algorithm` (at lines 65 and 74) and a null sub-operation (the `switch` at line 61) and a null `sSign.getId()` (passed to `cleanTriphaseData` at line 53) are not modelled; `sSign`, its id, `algorithm` and the sub-operation are plain values.
- Concurrency: at-most-once completion per signer and batch, and parallel validation, are outside the shown code, which has none.
