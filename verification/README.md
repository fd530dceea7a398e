# Pollek Cloud control plane: a Dafny verification

A model of the four stateful parts of the control-plane API, with proofs.

**Canonical JSON and the signing spine.** `Text`, `Json`, `JsonReader`, `JsObjects` and `CanonicalBytes` treat
`stableJson` on UTF-16 code units and show that its text, and the UTF-8 bytes that are hashed and signed, determine
the value; `JsonText` says which text it is, unit by unit. `Manifest` builds the unsigned manifest with its
provenance, SBOM, attestation and approval; `ManifestReading` says what a reader finds under each of its keys.
`Signing` states what signing, verifying, serving and artifact building do to a bundle document; `SigningService` runs
them on objects updated in place; `ServedReading` says what a client finds in a served document, a signature record
and an artifact; `Serving` holds the facts about one serve, `SigningRuns` and `Generations` those over
whole runs, `Forgery` what verification makes of records that no signing made, `Ledger` and `SigningLedgers` those
about the bounded ledgers, `Allowlist` the signer allowlist and the check that the documentation gives to relying
parties.

**Durable state.** `RowStore` flattens a runtime snapshot to rows and rebuilds it; `RowStoreProofs` shows what comes
back from rows in any order and through any tenant filter; `TenantPolicy` is the row-level-security policy in
three-valued logic; `TenantFiling` says which row each document gets and who rebuilds it, by what the document says of
its tenant; `RuntimeDatabase` has the loops, the chunked inserts and the transaction; `Restart` applies a
snapshot to a fresh process; `BundleDocuments` (with `PropertyNames`) stores bundles and ledgers as documents and joins
a restart to the crashes of `SigningRuns`, and `StoredReading` says what these documents hold; `Debounce` is the
debounced save.

**Cost and token reports.** `Reports` aggregates records into groups and totals and selects date windows,
`ReportFields` says from which fields of a record each figure, key and bound is read and in which order groups stand,
`ReportTheorems` has the conservation, rounding, counting and window results, `Csv` the export and a reader for it.

**Token verification keys.** `Jwks` interleaves any number of verifications with the clock and a key server that
changes what it serves.

`JsMap` is JavaScript's insertion-ordered Map, `Lists` filters lists, and `Options` is the optional value.

## Assumptions

* SHA-256, signing and signature verification are parameters (`Manifest.Env`). `Signing.Sound` asks that verify
  accepts what sign made with either form of the current key and that signatures are not empty. The tamper results ask
  that the hash tells the manifests at hand apart (`SigningRuns.Distinguished`), nothing more. The results on refusal by
  the allowlist ask that no key but its own verifies the signature at hand (`Allowlist.OwnKeyOnly`).
* The id of the current key and the ids of retired keys are computed differently (apps/api/trust.mjs:28,
  apps/api/signer.mjs:39-46); they are separate values here and never assumed equal.
* In runs, edits may change everything a manifest covers, and any signature records whatever may be put on a bundle.
  `SigningRuns.Genuine` marks the runs in which such records were made by a signing before. The results on forged
  records ask that no signature at hand was made with a key of the service other than by a logged signing
  (`Forgery.Unforged`), and that no key of the service verifies what an outsider signs (`Forgery.Outsider`).
* `SigningLedgers.LedgersAreMostRecent` asks that each signing gets a record id of its own
  (`SigningLedgers.FreshIds`); the source takes random ones (apps/api/trust.mjs:563).
* A save writes the state it captured when it started. The file path does so (apps/api/persistence.mjs:214-217); the
  Postgres path serialises documents after awaits (apps/api/db.mjs:175-188), so for it `Debounce` and
  `RuntimeDatabase.RuntimeItems.Persist` assume that nothing is mutated in between. Without that, a save started before
  the last mutation may still write the live state; one started after it does so in any case.
* A commit that fails commits nothing.
* Numbers are the texts JavaScript prints for finite numbers; report arithmetic is exact, over reals.
* Documents survive `JSON.stringify`, `jsonb` and `JSON.parse` as JSON values. Key order is not part of a value.
* The clock does not go backwards. A fetch is abandoned after 4000 ms and the cache lifetime is at least 30000 ms
  (apps/api/keycloak.mjs:12, apps/api/keycloak.mjs:51).

## Where the code differs from its description

* packages/db/migrations/0003_runtime_store.sql:14-15 says that a session with no scope sees no row. The policy
  makes shared rows visible to it: `TenantPolicy.UnsetScope`.
* Device and enrollment entries are `{ key, value }` objects (apps/api/lib/util.mjs:18-20), not the pairs that
  apps/api/db.mjs:21 mentions, so they are always filed as shared: `TenantPolicy.MapEntriesAreShared`.
* A save through Postgres reads the generation counter at once but serialises bundles after awaits
  (apps/api/persistence.mjs:93-112, apps/api/db.mjs:175-188). `SigningRuns` saves atomically;
  `Generations.TornSaveExactly` says exactly when the later serialisation does no harm, `Generations.TornSaveBreaks` is
  a run in which it does. The present callers keep to the harmless side: a bundle is signed before it is listed
  (apps/api/server.mjs:7333-7334, apps/api/server.mjs:7446-7447) and boot signs the rest
  (apps/api/server.mjs:8310-8314).
* A signature is said to break when anything it covers is tampered with (apps/api/trust.mjs:422-423). Verification
  trusts a public key pinned in the signature record itself (apps/api/trust.mjs:471-479), so one forged record makes any
  bundle valid, and it is served as signed: `Forgery.ForgeryInput`, `Forgery.ForgedIsServed`.
  `Forgery.PinsTellExactly` says for which pinned keys a valid verdict tells that the manifest was signed.
* Saves that overlap or fail can leave an older state durable with no timer set: `Debounce.OverlapLosesState`,
  `Debounce.FailureLosesState`. `Debounce.DurableExactly` says when the durable copy is the live state.
* The recipe of docs/CLOUD_PHASE1_TRUST_SPINE.md:47-49 looks the key id of a signature up in the allowlist. It accepts
  what the process signs (`Allowlist.FreshServeAccepted`), and a signature kept from an earlier process exactly when
  that one's key is published under its id (`Allowlist.ServedRecipeExactly`). The key pair is made anew at every start
  (apps/api/trust.mjs:15), so a restart loses it: `Allowlist.RestartInput`.
* A manifest shows the approval time of the bundle, never that of the stored approval record
  (apps/api/trust.mjs:359-360), so a signature does not cover the latter: `Manifest.StoredTimeNotCovered`.
* Agents and models are counted by other keys than they are grouped by (apps/api/reports.mjs:138-145,
  apps/api/reports.mjs:213-219): `ReportTheorems.AgentCountsAgreeInScope`, `ReportTheorems.ModelCountsAgreeInScope`.

## Model

| member | source | states |
|---|---|---|
| JsonReader.ReadsBack | apps/api/lib/util.mjs:35-42 | a reader recovers the value from its canonical text with any text after it; a number only needs its text to end there |
| JsonReader.ReadBodyQuoted | apps/api/lib/util.mjs:35-42 | quoted strings, with every escape of section 7 of RFC 8259 and escaped lone surrogates, read back to the same code units |
| JsonReader.StableJsonInjective | apps/api/lib/util.mjs:35-42 | two JSON values have the same canonical text exactly when they are equal |
| JsonText.PrintedAsIs | apps/api/lib/util.mjs:36 | a string without controls, quotation marks, reverse solidi and lone surrogates prints as itself between quotation marks |
| JsonText.OneUnitPrinted | apps/api/lib/util.mjs:36 | a single unit prints as itself, as one of the seven two-unit escapes, or as `\u` and four lower-case hexadecimal digits, and which of these is fixed for every unit |
| JsonText.PairPrinted | apps/api/lib/util.mjs:36 | a surrogate pair prints as itself |
| JsonText.PrintedInParts | apps/api/lib/util.mjs:36 | the text of a string is the texts of its parts one after the other, wherever no surrogate pair is split |
| JsonText.ArrayText | apps/api/lib/util.mjs:37 | an array prints as its items in order, with commas between brackets |
| JsonText.ObjectText | apps/api/lib/util.mjs:38-42 | an object prints as its members with keys in ascending order, each as quoted key, colon, value, with commas between braces |
| JsObjects.PrintsValue | apps/api/lib/util.mjs:35-42 | sorting the keys makes the text of an object independent of the order its keys were inserted in |
| JsObjects.Unambiguous | apps/api/lib/util.mjs:31-42 | two objects print the same text exactly when they are equal up to key order, at every depth |
| JsObjects.StableJsonWellFormed | apps/api/lib/util.mjs:35-42 | canonical text never holds a lone surrogate, so encoding it as UTF-8 substitutes nothing |
| CanonicalBytes.DecodeEncoded | apps/api/lib/util.mjs:45-47 | UTF-8 of well-formed text decodes back to it |
| CanonicalBytes.CanonicalBytes | apps/api/trust.mjs:556-560 | the bytes that are hashed and signed agree exactly when the two objects are equal up to key order |
| CanonicalBytes.ShortestForm | apps/api/trust.mjs:556-560 | each character is encoded in the number of bytes and with the lead byte of section 3 of RFC 3629 |
| Text.SortedIsAscending | apps/api/lib/util.mjs:38-39 | any sorted list of distinct keys is the ascending list of their set |
| Text.LeqExactly | apps/api/lib/util.mjs:38-39 | a key comes no later than another exactly when it is a prefix of it or has the smaller unit where they first differ |
| Text.DigitsExactly | apps/api/lib/util.mjs:36 | a whole number prints as its decimal digits without leading zeros |
| Manifest.ByField | apps/api/trust.mjs:399-442 | the manifest has one member for every signed field and none of the four added later |
| Manifest.ManifestDetermines | apps/api/trust.mjs:390-443 | equal manifests mean equal tenant, bundle, revision, creation time, control level, compliance bundle, hot reload, generation, data, policies, artifacts, provenance, SBOM, attestation and shown approval, even across processes with different keys or versions |
| Manifest.ManifestExactly | apps/api/trust.mjs:390-443 | under one hash the manifests are equal exactly when these are, so nothing else of a bundle is covered |
| Manifest.StoredTimeNotCovered | apps/api/trust.mjs:359-366 | changing the time or the reason of a stored approval record leaves the manifest as it is |
| Manifest.KeysDistinct | apps/api/trust.mjs:399-442 | no two manifest fields share a key |
| Manifest.ManifestShowsStored | apps/api/trust.mjs:359-388 | the manifest's approval block shows the stored record's id, status, approver and source, with the defaults where these are missing, and the bundle's own approval time |
| ManifestReading.KeysShown | apps/api/trust.mjs:399-442 | the manifest has the 21 named members and no other |
| ManifestReading.NamesShown | apps/api/trust.mjs:399-405 | versions, bundle id, tenant, revision and creation time stand under their keys, with the defaults where the bundle lacks them |
| ManifestReading.ContentShown | apps/api/trust.mjs:411-431 | policies, artifacts, compliance bundle, hot reload, signed fields, generation and data stand under their keys |
| ManifestReading.TargetShown | apps/api/trust.mjs:406-410 | the target holds the control level, the two capabilities and the selector |
| ManifestReading.ApprovalShown | apps/api/trust.mjs:359-388 | every member of the approval block, with the default for whatever the bundle stores nothing for |
| ManifestReading.ManifestDigests | apps/api/trust.mjs:432-441 | each of the eight digests of a manifest is the hash of the canonical text of the member it names |
| ManifestReading.ProvenanceShown | apps/api/trust.mjs:244-288 | the provenance names the builder, the source with the hash of id, revision and policies, and the three materials, each with the hash of the policies, artifacts or data of the bundle |
| ManifestReading.SbomShown | apps/api/trust.mjs:292-336 | the SBOM lists the bundle with the hash of its policies and artifacts, then exactly the engines that the policies name, once each and in order; the serial number is cut from the hash of these |
| ManifestReading.AttestationShown | apps/api/trust.mjs:339-357 | the attestation names the bundle by the hash of its id and revision and counts its policies and fixtures |
| Signing.GrownSame | apps/api/trust.mjs:445-457 | pushing the bundle's signature onto its own array changes neither the normalized list nor the verdict |
| ServedReading.NormalizedExactly | apps/api/trust.mjs:445-457 | of the array and the own signature of a bundle one record is kept for each id, or for each key id, payload hash and signature: the last, in order of first appearance |
| JsMap.FilledExactly | apps/api/trust.mjs:448-457 | a Map filled from entries holds one per key, the last one, in order of first appearance |
| Serving.OverlapVerifies | apps/api/signer.mjs:72-84 | verification against a key set succeeds exactly when some key verifies, and names the first that does |
| Serving.UnpinnedVerifies | apps/api/trust.mjs:47-52 | a signature without a pinned key verifies exactly with the current key or one still in its rotation overlap |
| Serving.ValidExactly | apps/api/trust.mjs:459-520 | valid means: at least one signature, every record states the hash of the current manifest, every signature verifies with its pinned key or a known one |
| Serving.RecordDescribesBundle | apps/api/trust.mjs:537-592 | signing is refused exactly without an approved record and named approver; otherwise the record agrees with the bundle and with the approval its manifest shows, and heads the ledger |
| Serving.FreshlySigned | apps/api/trust.mjs:555-591 | after signing the bundle has exactly one normalized signature and verifies as valid |
| ServedReading.SignedExactly | apps/api/trust.mjs:537-592 | signing is refused in the order no record, not approved, no approver; otherwise every field of the new record, of the bundle and of the counter is the stated one |
| Serving.ServeAlwaysValid | apps/api/trust.mjs:594-617 | serving succeeds exactly when the bundle is already valid or its approval is absent or approved, and what it serves is then valid, signature by signature |
| ServedReading.ServedDocument | apps/api/trust.mjs:606-617 | a client finds every member of the manifest as it was signed, its hash, every field of every signature, a result for each of them, the status valid, and whether the bundle was signed now or before |
| ServedReading.VerdictRead | apps/api/trust.mjs:504-519 | a verdict says unsigned without signatures, valid when every one matches the hash and verifies, else invalid, and shows each result under its keys |
| ServedReading.FreshServe | apps/api/trust.mjs:594-604 | a serve that signs leaves one signature, made now for the manifest it serves, and the next generation if there was none |
| Serving.ServedApproval | apps/api/trust.mjs:361-388 | the served approval block says approved and names an approver |
| Serving.StripAdded | apps/api/trust.mjs:610-616 | removing the four added members from the served document gives exactly the signed value |
| Serving.StrippedBodyVerifies | apps/api/trust.mjs:606-617 | stripping a served document and printing it canonically gives the text that every served signature verifies for, with the key pinned in it or a known one |
| Allowlist.UnsignedSignerAllowlist | apps/api/trust.mjs:94-139 | the loops over retired and revoked ids give the specified list of signers |
| Allowlist.AllowlistExactly | apps/api/trust.mjs:94-139 | for every id: the list gives the key the process publishes for it whatever is revoked, it has the id exactly when published or revoked, and calls it revoked exactly when it is |
| Allowlist.EntriesExplained | apps/api/trust.mjs:94-131 | the current key stands first; every other entry is a retired key, marked as such, or a revoked id that is not published, without a key |
| Allowlist.FreshServeAccepted | docs/CLOUD_PHASE1_TRUST_SPINE.md:47-49 | the documented recipe (strip, print canonically, verify with the allowlisted key of the key id) accepts every signature made by the serving process |
| Allowlist.RecipeAcceptsExactly | docs/CLOUD_PHASE1_TRUST_SPINE.md:47-49 | it accepts any served signature exactly when the key pinned in it is published under its key id |
| Allowlist.StrictRecipeExactly | apps/api/trust.mjs:62-74 | with the trust policy's demand that the signer be listed as active, exactly when that is so and the key id is not revoked |
| Allowlist.ServedRecipeExactly | docs/CLOUD_PHASE1_TRUST_SPINE.md:47-49 | in every reachable state it accepts a served signature of an earlier signing exactly when that signer's id is the current one, or the first retired one of that id, with that signer's key |
| Allowlist.RestartBreaksRecipe | apps/api/trust.mjs:15 | a bundle signed, saved and restored under a new key pair is served as valid and refused by the recipe, unless the old id is still published |
| Allowlist.RestartInput | apps/api/signer.mjs:39-46 | a concrete input: refused although the old key is still published, under the id computed for retired keys |
| Serving.ServesAreStable | apps/api/trust.mjs:445-457 | any number of later serves return the same manifest, hash and signatures as reused, while the own array of a bundle that has a signature grows by four each time |
| Serving.ArtifactIsStable | apps/api/trust.mjs:619-652 | serving an unchanged bundle again builds the same artifact, so the same artifact hash |
| ServedReading.ArtifactShown | apps/api/trust.mjs:619-652 | an artifact names the bundle and the hash of its manifest, has the same evidence as the manifest, the engines its policies name, and a summary of each signature |
| ServedReading.ArtifactRecordShown | apps/api/trust.mjs:653-664 | the ledger record of an artifact holds the hash of its canonical text and the id and address made from it |
| SigningService.Signer.Normalize | apps/api/trust.mjs:445-457 | the method grows the array in place and returns the last record per key in order of first appearance |
| SigningService.Signer.VerifyAgainstKeys | apps/api/signer.mjs:72-84 | the early-exit scan returns the id of the first key that verifies |
| SigningService.Signer.Verify | apps/api/trust.mjs:459-520 | verification of the bundle object against a manifest, with one result per normalized signature |
| SigningService.Signer.SignBundle | apps/api/trust.mjs:537-592 | signing updates the bundle, the generation counter and the ledger in place as specified, or nothing when refused |
| SigningService.Signer.EnsureSignature | apps/api/trust.mjs:594-604 | a valid bundle only touches the ledger; any other is signed with its default approval |
| SigningService.Signer.ServeManifest | apps/api/trust.mjs:606-617 | the served value and the state it leaves are the specified ones |
| SigningService.Signer.BuildArtifact | apps/api/trust.mjs:619-673 | the artifact record is put at the head of its ledger after the manifest is served |
| SigningRuns.RunLogged | apps/api/trust.mjs:537-592 | in every reachable state, whatever records were put on bundles, each logged signing carries the key of its process, attests its manifest and was made under an approved record |
| SigningRuns.RunTraceable | apps/api/trust.mjs:537-592 | without forged records, every signature record on a live or saved bundle was made by a logged signing |
| SigningRuns.TamperEvidence | apps/api/trust.mjs:459-520 | in every reachable state, whatever was edited and whatever records were put where, a bundle verifies exactly when it has signatures, its manifest is the one each logged one was made for, and every other one checks out with the key it brings along, if the hash tells the manifests apart |
| SigningRuns.GenuineEvidence | apps/api/trust.mjs:459-520 | without forged records, exactly when it has signatures and its manifest is the one each of them was made for |
| SigningRuns.ValidMeansUnchanged | apps/api/trust.mjs:390-520 | a valid verdict fixes everything a manifest covers (Manifest.ManifestExactly) to what every logged signature on the bundle was made for under a named approver; without forged records there is one |
| Forgery.AnchoredMeansSigned | apps/api/trust.mjs:471-482 | in every reachable state, with any records on any bundles, a valid verdict means that the bundle says what some logged signing signed, if one of its signatures is unpinned or pinned to a key of the service and was not forged with such a key |
| Forgery.PinsTellExactly | apps/api/trust.mjs:471-482 | for every set of pinned keys, a valid verdict tells that the manifest was signed exactly when one signature is unpinned or pinned to a key of the service |
| Forgery.ForgedIsServed | apps/api/trust.mjs:471-479 | any bundle with one record signed by an outsider is valid and served as already signed |
| Forgery.ForgeryInput | apps/api/trust.mjs:471-479 | a concrete input: a bundle with a rejected approval, in a process that never signed, is valid |
| Generations.SignAssigns | apps/api/trust.mjs:549-554 | a first signing takes the next generation; re-signing never changes one |
| Generations.GenerationsStayOrdered | apps/api/trust.mjs:549-554 | in every reachable state, across crashes that restore any save, live and saved generations are positive, pairwise distinct and at most the counter |
| Generations.TornSave | apps/api/persistence.mjs:93-112 | when bundles are serialised later than the counter was read, the restored generations stay ordered exactly when no captured bundle was first signed in between |
| Generations.TornSaveExactly | apps/api/db.mjs:175-188 | every such save of a state restores ordered, whatever happens meanwhile, exactly when every listed bundle has its generation at the start |
| Generations.TornSaveBreaks | apps/api/db.mjs:175-188 | a run with one bundle whose save restores a generation past the counter |
| Ledger.LedgerIsMostRecent | apps/api/trust.mjs:522-535 | a bounded ledger is always the 100 most recently used distinct keys of its unbounded history, newest first |
| Ledger.MostRecentCovers | apps/api/trust.mjs:665-671 | the reference history keeps the newest record of every key |
| Ledger.LedgerSize | apps/api/trust.mjs:522-535 | a ledger holds one record for every key ever used, up to a hundred of them |
| Ledger.List.Use | apps/api/trust.mjs:665-671 | find, splice, unshift and slice on the list give the specified ledger |
| SigningLedgers.ArtifactLedgerIsMostRecent | apps/api/trust.mjs:665-671 | the artifact ledger is the 100 most recently used distinct hashes, newest first |
| SigningLedgers.SignatureLedgerIsMostRecent | apps/api/trust.mjs:522-535 | so is the signature ledger by bundle, hash and key, when no record id is reused for another of these |
| SigningLedgers.SignatureLedgerExactly | apps/api/trust.mjs:522-535 | for every history on a pool of records the ledger is the most-recent list, exactly when no two of them share an id for different subjects |
| SigningLedgers.RecordsWithoutIdCollide | apps/api/trust.mjs:524-531 | two records without an id are taken for one, so using one forgets the other |
| SigningLedgers.LedgersFollowHistory | apps/api/trust.mjs:522-535 | in every reachable state, across crashes that restore any save and with any records on bundles, the artifact ledger holds exactly the 100 most recently used distinct hashes of its history, newest first, and so does the signature ledger by subject if no id of its history is shared by different subjects |
| SigningLedgers.LedgersAreMostRecent | apps/api/trust.mjs:522-535 | both always do when no record was forged and each signing has an id of its own |
| SigningLedgers.LedgersHold | apps/api/trust.mjs:534 | in every reachable state the ledgers hold as many records as there are different artifact hashes, or subjects, in their history, up to a hundred |
| SigningLedgers.ServeUses | apps/api/trust.mjs:594-604 | a serve keeps the ledger equal to the ledger of the history extended by the records it touched |
| RowStoreProofs.RebuildView | apps/api/db.mjs:122-171 | the rows that a tenant filter lets through, in any order, rebuild the snapshot with every collection filtered and in order |
| RowStoreProofs.RowsRoundTrip | apps/api/db.mjs:122-171 | rebuilding undoes flattening for every order of the rows, up to empty arrays and absent values |
| RowStoreProofs.PrimaryKeys | packages/db/migrations/0003_runtime_store.sql:26 | rows have distinct primary keys exactly when no fleet key listed twice has anything to store |
| TenantFiling.RowsExactly | apps/api/db.mjs:122-144 | the stored rows are exactly those of the documents of the tenant, the seven root lists and the listed fleet fields, under their collection names and positions |
| TenantFiling.RowsFiledRight | apps/api/db.mjs:105-119 | every row is filed under the tenant its document names, an array under the one its second item names, and as shared when there is none |
| TenantPolicy.VisibleRows | packages/db/migrations/0003_runtime_store.sql:36-41 | a row is visible to everyone if shared, else to its own tenant and the aggregator; with no scope only shared rows are |
| TenantPolicy.WritableRows | packages/db/migrations/0003_runtime_store.sql:42-46 | the aggregator may write any row, a tenant its own, and never a shared one |
| TenantPolicy.TenantView | packages/db/migrations/0003_runtime_store.sql:36-41 | an ordinary tenant rebuilds exactly its own and the shared documents of every collection, in order |
| TenantPolicy.UnsetScope | packages/db/migrations/0003_runtime_store.sql:36-41 | a session without scope rebuilds exactly the shared documents |
| TenantFiling.SessionRebuilds | packages/db/migrations/0003_runtime_store.sql:36-41 | with any setting a session rebuilds, place by place and in order, exactly the documents that name no tenant, the shared one or its own, or all for the aggregator |
| TenantFiling.NoForeignDocument | packages/db/migrations/0003_runtime_store.sql:36-41 | no document that names another tenant is in the rebuild of an ordinary tenant |
| TenantPolicy.TenantsShareOnlySystem | packages/db/migrations/0003_runtime_store.sql:36-41 | two different tenants both see a row exactly when it is shared |
| TenantPolicy.MapEntriesAreShared | apps/api/db.mjs:105-119 | a { key, value } entry is filed as shared whatever its value says, so every scope sees it |
| RuntimeDatabase.Flattened | apps/api/db.mjs:122-144 | the pushing loops produce the specified row list |
| RuntimeDatabase.Rebuilt | apps/api/db.mjs:147-171 | the Map of groups and the loops over it produce the specified snapshot |
| RuntimeDatabase.BuildStatement | apps/api/db.mjs:183-188 | every placeholder of a chunk names its own row's field, within 2000 parameters |
| RuntimeDatabase.BuildStatements | apps/api/db.mjs:180-194 | the chunk loop ends, its statements insert at most 500 rows each and together the whole list in order |
| RuntimeDatabase.RuntimeItems.Persist | apps/api/db.mjs:175-196 | the table becomes exactly the snapshot's rows, or stays as it was when any statement of the transaction fails, from begin to commit, or a key conflicts; the success condition is exact |
| RuntimeDatabase.RuntimeItems.Load | apps/api/db.mjs:199-208 | loading rebuilds from the rows in whatever order they arrive; an empty table gives nothing |
| Restart.MapRoundTrip | apps/api/lib/util.mjs:18-29 | filling a Map from the entries of a Map gives it back, order included |
| Restart.RestartFromRows | apps/api/persistence.mjs:93-150 | after a restart through the row store every persisted component is back exactly when lists are within retention, billing plans are not empty and the tenant has every default field; otherwise what survives is stated |
| Restart.RestartFromFile | apps/api/persistence.mjs:179-188 | through the snapshot file the billing plans need not be non-empty |
| Restart.RuntimeState.ApplySnapshot | apps/api/persistence.mjs:114-150 | the in-place overwrite of the state is the specified one |
| BundleDocuments.BundleBack | apps/api/trust.mjs:562-591 | a stored bundle, with its approval and signature records, reads back as itself |
| StoredReading.StateStored | apps/api/trust.mjs:562-591 | a stored bundle holds its tenant, approval, generation, status, hash and signature records, member by member, under the keys of the source |
| StoredReading.ContentStored | apps/api/trust.mjs:399-418 | and the fields that its manifest is built from |
| StoredReading.BundleFiled | apps/api/db.mjs:105-119 | a stored bundle is filed under the tenant it was signed for |
| BundleDocuments.RestartResumes | apps/api/persistence.mjs:114-150 | a restart through the row store, with the rows of any save in any order, gives the bundles, ledgers and counter from which runs continue after a crash to that save |
| BundleDocuments.FileRestartResumes | apps/api/persistence.mjs:179-188 | so does a restart through the snapshot file |
| Debounce.OneTimer | apps/api/persistence.mjs:230-237 | in every reachable state at most one timer is pending, and a live state newer than the last snapshot has one |
| Debounce.DurableExactly | apps/api/persistence.mjs:198-237 | for every run the durable copy is the live state exactly when nothing was mutated, or the save completed last was started after the last mutation |
| Debounce.NewestLastMeansDurable | apps/api/persistence.mjs:198-237 | with nothing pending or in flight the live state is durable if the newest save completed last, whatever earlier saves did |
| Debounce.QuietMeansDurable | apps/api/persistence.mjs:198-237 | so it is if saves finish in order and the newest one in flight never fails |
| Debounce.OverlapLosesState | apps/api/persistence.mjs:233-236 | two overlapping saves finishing in the wrong order leave an old state durable with no timer set |
| Debounce.FailureLosesState | apps/api/persistence.mjs:208-210 | a failed save is not retried until the next mutation |
| Debounce.PersistTimer.ScheduleRuntimePersist | apps/api/persistence.mjs:230-237 | after a mutation a new timer is the only one that can fire and the invariant of OneTimer holds again, with nothing else changed; when persistence is disabled nothing happens |
| Reports.Aggregate | apps/api/reports.mjs:258-270 | the loop over a Map of mutable buckets gives the specified report |
| Reports.Summarize | apps/api/reports.mjs:272-275 | the loop over one bucket gives the specified totals |
| Reports.SortGroups | apps/api/reports.mjs:265-269 | the sorted list is ordered by cost, then tokens, then calls, and has the same groups |
| ReportTheorems.ReportConserves | apps/api/reports.mjs:184-300 | for every record list and dimension, each token, cost, credit, call and record sum over the groups equals the totals, and reported plus estimated equals records |
| ReportTheorems.ReportPartitions | apps/api/reports.mjs:258-270 | the report is sorted, has one group per key that occurs, and each group carries the sums and counts of exactly the records with its key |
| ReportFields.OneRecord | apps/api/reports.mjs:184-225 | in the totals of one record every figure is the first finite number of its listed fields, tokens are input and output when no total is given or it is zero, and a record is estimated exactly when its confidence, or else its source, contains the word |
| ReportFields.TotalsAddUp | apps/api/reports.mjs:184-225 | the totals of a list are the sums of those of its records, figure by figure |
| ReportFields.GroupShowsTotals | apps/api/reports.mjs:258-270 | a group shows the totals of the records with its key |
| ReportFields.IdentityFields | apps/api/reports.mjs:100-156 | the key, label and details of a group come from the stated fields of its first record, in this order |
| ReportFields.ScopeFields | apps/api/reports.mjs:32-92 | a record is in scope exactly when it is about cost or tokens, of the tenant, and stamped within bounds in which a date stands for its 86400000 milliseconds |
| ReportFields.ReportOrder | apps/api/reports.mjs:265-269 | groups stand by descending cost, then tokens, then calls, and in order of first appearance where these are equal |
| ReportFields.Round4Exactly | apps/api/reports.mjs:242 | credits below 1e21 are rounded to the nearest ten-thousandth, away from zero when two are |
| ReportTheorems.Round4Near | apps/api/reports.mjs:242 | four-decimal rounding moves a value by at most 0.00005 |
| ReportTheorems.CreditsWithinBound | apps/api/reports.mjs:228-300 | with k groups, the sum of rounded credits is within (k+1) times 0.00005 of the rounded total |
| ReportTheorems.GroupCountsMatchTotals | apps/api/reports.mjs:100-156 | for device, user, tenant and provider the number of groups is the matching count of the totals |
| ReportTheorems.AgentCountsDiffer | apps/api/reports.mjs:213-219 | on usage records in scope, for agents the number of groups can be larger or smaller than the count |
| ReportTheorems.AgentCountsAgreeExactly | apps/api/reports.mjs:213-219 | the two are equal for every list on a pool of records, exactly when any two of its records share the grouping key just when they share the counting key |
| ReportTheorems.AgentCountsAgreeInScope | apps/api/reports.mjs:86-92 | on every report over a scope the same holds for the records of the pool that the scope takes up |
| ReportTheorems.ModelCountsDiffer | apps/api/reports.mjs:138-145 | on usage records in scope, for models too: joining provider and model with two colons can merge different models |
| ReportTheorems.ModelCountsAgreeExactly | apps/api/reports.mjs:138-145 | so for models, with provider and model joined against the model name |
| ReportTheorems.ModelCountsAgreeInScope | apps/api/reports.mjs:86-92 | and on every report over a scope |
| ReportTheorems.OrderDoesNotMatter | apps/api/reports.mjs:184-300 | for any order of the records the totals are the same, and so is every group but for its label: sums, credits, pools, distinct counts and last activity |
| ReportTheorems.WindowsSplit | apps/api/reports.mjs:54-84 | a dated record of days a to c is in exactly one of the windows a to b and b+1 to c |
| ReportTheorems.AdjacentWindowsAdd | apps/api/reports.mjs:54-92 | the totals of two adjacent date windows add up to the totals of the window they form |
| ReportTheorems.MeetingWindowsAdd | apps/api/reports.mjs:54-92 | the totals of two meeting windows, with dates or instants as bounds, are those of the whole and once more those of the overlap; they add up exactly when the overlap selects no record |
| ReportTheorems.InstantWindowsAdd | apps/api/reports.mjs:76-84 | with an instant as shared bound the records stamped at it count twice: the totals add up exactly when there are none in scope |
| ReportTheorems.InstantCountsTwice | apps/api/reports.mjs:76-84 | an input: one usage record stamped at the shared instant |
| Csv.CsvReadsBack | apps/api/reports.mjs:357-384 | a reader following section 2 of RFC 4180 with LF recovers the 18 column names and 18 fields per group, the name of the grouping first, each number in its own column, with the original key, label and last activity |
| Csv.QuotedBack | apps/api/reports.mjs:360 | a quoted field reads back whatever commas, quotes and line feeds it contains |
| Csv.LineExactly | apps/api/reports.mjs:357-384 | in the line of a group the key, label and last activity stand between quotation marks with their own marks doubled, and everything else is bare |
| Jwks.AcceptedKeysAreFresh | apps/api/keycloak.mjs:40-107 | over every interleaving, a key used for a check was served at the call's url under its kid less than one TTL before |
| Jwks.ServedKidIsKnown | apps/api/keycloak.mjs:97-107 | a kid the server serves throughout a call is never reported unknown unless a fetch fails |
| Jwks.CheckedWithPublished | apps/api/keycloak.mjs:55-66 | over every interleaving, a check uses the material of the last entry of a served document that has the call's kid, is an importable RSA key and is for signing or for no stated use |
| Jwks.PublishedKidIsKnown | apps/api/keycloak.mjs:97-107 | a kid for which every served document has such an entry throughout a call is never reported unknown unless a fetch fails |
| Jwks.UnknownWasNotPublished | apps/api/keycloak.mjs:97-107 | an unknown kid without a failed fetch means a document served during the call had no such entry |
| Jwks.UnknownMeansMissing | apps/api/keycloak.mjs:97-107 | an unknown kid without a failed refresh means an answer during the call lacked it |
| Jwks.AtMostTwoFetches | apps/api/keycloak.mjs:88-107 | each call fetches at most twice |
| Jwks.JwksCache.Cached | apps/api/keycloak.mjs:41-49 | keys taken from the cache were served at this url less than one TTL ago; it fetches only when forced or when the cache has no keys of this url that young |
| Jwks.JwksCache.Install | apps/api/keycloak.mjs:55-66 | the loop over published keys keeps usable ones, the last per kid, and replaces the cache, which stays a map of served keys stamped with the time the load began |

## Left out

- The initial signing of all bundles at boot (apps/api/trust.mjs:675-689) and its audit entries: a loop of serves.
- The trust policy and revocation documents, the signatures on these and on the allowlist (apps/api/trust.mjs:35-160),
  and the provenance view: signed the same way, with easier contents.
- The HTTP router, enrollment, telemetry ingest and authorization: bundle creation and edits are environment steps.
- Cryptographic algorithms, PEM and JWK import, base64url, random ids and clocks: parameters.
- Connections, migrations, file writes, HTTP and the save counters of `persistence`: plumbing. The temporary file that
  overlapping file saves share is not modelled.
- The checks of `verifyToken` after a key is found (signature, expiry, issuer, audience): one branch each.
- The schema version of a signature record and of an artifact record, and the error text of a verification that threw.
- A missing text of a record or of a bundle is an empty one here, and is stored and served as such.
- Null entries in a bundle's signature array, fractional or infinite generations, and stored counters that are not
  natural numbers.
- Engine names that are neither a string nor a list of strings, when they are listed in the SBOM and the artifact.
- Map entries whose value is missing are read as null; a stored tenant that is an array is ignored on restart.
- Usage fields that are neither text nor number, the strict type comparison of tenant ids, the order of credit pools
  within a group, and the average costs of the totals.
- Report texts are taken to have no characters beyond the Basic Multilingual Plane, where comparing characters and
  comparing code units differ.
- URL encoding of the bundle id in the artifact's manifest URL.
- Serving.ServesAreStable: compares later serves with the first one; the ledgers are in SigningLedgers.
- BundleDocuments.BundleBack: of a bundle's test fixtures only their number is part of the model.
