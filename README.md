# dm_lab2fhir_inc in Dafny

This project models the core of `dm_lab2fhir_inc`, an incremental ETL. The ETL reads
updated and cancelled clinical records from a data warehouse, maps them to FHIR
resources and writes them to a PostgreSQL document store. The model has five parts.

- **The transaction accumulator** `FHIRBundle`. It collects entries and per-type lists
  of cancelled ids. Its `execute` upserts every entry and then runs the soft-delete
  cascades in a fixed order. The store is a map from `(fhir_id, type)` to a row holding
  the JSON fields the SQL reads, the `is_deleted` flag and the two timestamps.
- **The passes** of `UMMonFHIR`: patients, encounters, transfers, conditions, procedures
  and laboratory results. Each pass is a method with a loop over the joined query rows.
  The loop sends each row to the upsert or the cancellation branch, updates the
  counters, fills a bundle and executes it. Each pass is proved against a
  left-to-right specification fold (`RunOf`), and the properties are proved about
  that fold.
- **The read-back statistics** `get_ups_rm_num_fhir`, `get_pat_num_fhir` and
  `get_case_num_fhir`. They are counting functions over the same store.
- **The mappers.** Each mapper is a function from the record it reads to a record
  holding only the fields its rules set. A second function projects that record to
  the stored resource. Where the mapper loops, there is a method with a loop that is
  proved equal to the function.
- **The lung-function lookup tables.** These are constant maps, each with a default
  value.

Some things are parameters of the model:
- the pseudonymizer (a deterministic function of the text it is sent);
- resource validation (`as_json` raising or not; a predicate);
- sha256 (a deterministic function);
- the LOINC converter (an optional oracle);
- the clock (`now`).

A Python exception that aborts a pass (`ValueError`, `KeyError`, `IndexError` from a
mapper) is a `Failure` of a `Result`.

## Model

| member | source | states |
|---|---|---|
| Bundle.FHIRBundle.constructor | dm_lab2fhir_inc/lib/fhir_bundle.py:23-30 | a new bundle has no entries and six empty cancellation lists |
| Bundle.FHIRBundle.Reset | dm_lab2fhir_inc/lib/fhir_bundle.py:27-30 | afterwards there are no entries and each of the six cancellation lists is empty |
| Bundle.FHIRBundle.AddResources | dm_lab2fhir_inc/lib/fhir_bundle.py:101-120 | appends, in input order, one entry per resource whose id did not occur earlier in the same call; the cancellation lists are unchanged |
| Bundle.DedupDistinct | dm_lab2fhir_inc/lib/fhir_bundle.py:103-108 | no two kept resources share an id |
| Bundle.DedupSameIds | dm_lab2fhir_inc/lib/fhir_bundle.py:103-108 | an id is kept iff it occurs in the input |
| Bundle.DedupFirstOccurrences | dm_lab2fhir_inc/lib/fhir_bundle.py:103-108 | every kept resource is the first input resource with its id |
| Bundle.DedupDistinctIdentity | dm_lab2fhir_inc/lib/fhir_bundle.py:103-108 | a call whose ids are already distinct keeps every resource, in order |
| Bundle.AddStep | dm_lab2fhir_inc/lib/fhir_bundle.py:103-115 | one loop iteration appends the entry and the id iff the id is unseen, and otherwise changes nothing |
| Bundle.EntryOf | dm_lab2fhir_inc/lib/fhir_bundle.py:110-115 | the entry has full URL `<type>/<id>`, the resource, and a POST request to the type |
| Bundle.ResourcesOfEntries | dm_lab2fhir_inc/lib/fhir_bundle.py:110-115 | the resources of the built entries are the input resources again |
| Bundle.FHIRBundle.RmResources | dm_lab2fhir_inc/lib/fhir_bundle.py:122-123 | appends the id to exactly the named type's list, keeping duplicates; entries and other lists unchanged; a type outside the six is a KeyError with nothing changed |
| Bundle.FHIRBundle.Execute | dm_lab2fhir_inc/lib/fhir_bundle.py:130-170 | the new table is `Deliver` of the entries and lists: all upserts, then the cascades for Encounter, Patient, Condition, Procedure, MedicationStatement, Observation; each `fetchone` pick is a matching row |
| Bundle.UpsertEach | dm_lab2fhir_inc/lib/fhir_bundle.py:138-153 | the upsert loop equals one `INSERT ... ON CONFLICT` per entry, in order |
| Bundle.CancelEncounterEach | dm_lab2fhir_inc/lib/fhir_bundle.py:159-160 | the Encounter loop equals the Encounter cascade for each id, in order |
| Bundle.CancelPatientEach | dm_lab2fhir_inc/lib/fhir_bundle.py:161-162 | the Patient loop equals the Patient cascade for each id, in order |
| Bundle.CancelConditionEach | dm_lab2fhir_inc/lib/fhir_bundle.py:163-164 | the Condition loop equals the Condition cascade for each id, with one admissible pick per id |
| Bundle.RmCanceledCondition | dm_lab2fhir_inc/lib/fhir_bundle.py:62-80 | marks the Condition, asks the diagnosis-index query, and rewrites that index when a row came back |
| Bundle.MarkEach | dm_lab2fhir_inc/lib/fhir_bundle.py:82-98 | the Procedure, MedicationStatement and Observation loops only mark each id deleted |
| Bundle.UpsertOnlyDelivery | dm_lab2fhir_inc/lib/fhir_bundle.py:138-153 | without cancellations, each key holds the body of its last entry and is not deleted |
| Bundle.CancelledEndsDeleted | dm_lab2fhir_inc/lib/fhir_bundle.py:155-170 | an id that is cancelled and exists, or is upserted in the same bundle, ends soft-deleted |
| Store.Upsert | dm_lab2fhir_inc/lib/fhir_bundle.py:138-153 | the key gets the body and `is_deleted` false, so an upsert undoes a soft delete; a conflict keeps `created_at` and sets `last_updated_at` to now, an insert has `created_at` now and no `last_updated_at`; other keys are unchanged |
| Store.UpsertAllLast | dm_lab2fhir_inc/lib/fhir_bundle.py:138-153 | after the upserts a key holds the body of the last entry with that key, not deleted |
| Store.UpsertAllOthers | dm_lab2fhir_inc/lib/fhir_bundle.py:138-153 | keys no entry names keep their row; the keys are the old keys plus the entries' keys |
| Store.MarkDeleted | dm_lab2fhir_inc/lib/fhir_bundle.py:82-98 | marking a row deleted adds or removes no key |
| Store.CancelEncounter | dm_lab2fhir_inc/lib/fhir_bundle.py:32-44 | the Encounter cascade adds or removes no key |
| Store.CancelEncounterRow | dm_lab2fhir_inc/lib/fhir_bundle.py:32-44 | only Encounter e is marked; any `encounter.reference` or `context.reference` of "Encounter/e" becomes "UNKNOWN"; nothing else about a row changes |
| Store.CancelPatient | dm_lab2fhir_inc/lib/fhir_bundle.py:46-60 | the Patient cascade adds or removes no key |
| Store.CancelPatientRow | dm_lab2fhir_inc/lib/fhir_bundle.py:46-60 | p and its Condition, Procedure and Observation children are marked; Encounter and MedicationStatement subjects become "UNKNOWN" without a flag change; all of these get `last_updated_at` refreshed |
| Store.CancelPatientFlag | dm_lab2fhir_inc/lib/fhir_bundle.py:46-60 | a row's new `is_deleted` is its old flag, or it is p, or it is a child of p |
| Store.ClearDiagnosisAt | dm_lab2fhir_inc/lib/fhir_bundle.py:76-80 | the positional rewrite of `diagnosis[i]` adds or removes no key |
| Store.CancelConditionRow | dm_lab2fhir_inc/lib/fhir_bundle.py:62-80 | c is marked; with a pick i, element i of every Encounter that has one becomes "UNKNOWN"; other indices and rows are unchanged |
| Store.CancelConditionNoMatch | dm_lab2fhir_inc/lib/fhir_bundle.py:62-80 | with no matching diagnosis element, the cascade only marks c |
| Store.PickedIndexMatches | dm_lab2fhir_inc/lib/fhir_bundle.py:68-75 | a picked index is one where some Encounter refers to "Condition/c" |
| Store.DiagnosisMatchesIgnoreFlags | dm_lab2fhir_inc/lib/fhir_bundle.py:66-75 | marking c deleted first does not change what the index query finds |
| Store.CancelEncountersNoRevival | dm_lab2fhir_inc/lib/fhir_bundle.py:159-160 | the Encounter loop never clears a deleted flag or removes a key |
| Store.CancelPatientsNoRevival | dm_lab2fhir_inc/lib/fhir_bundle.py:161-162 | the Patient loop never clears a deleted flag or removes a key |
| Store.CancelConditionsNoRevival | dm_lab2fhir_inc/lib/fhir_bundle.py:163-164 | the Condition loop never clears a deleted flag or removes a key |
| Store.MarkAllDeletedNoRevival | dm_lab2fhir_inc/lib/fhir_bundle.py:165-170 | the other loops never clear a deleted flag or remove a key |
| Store.CancelEncountersDeletes | dm_lab2fhir_inc/lib/fhir_bundle.py:159-160 | every listed Encounter that exists ends deleted |
| Store.CancelPatientsDeletes | dm_lab2fhir_inc/lib/fhir_bundle.py:161-162 | every listed Patient that exists ends deleted |
| Store.CancelConditionsDeletes | dm_lab2fhir_inc/lib/fhir_bundle.py:163-164 | every listed Condition that exists ends deleted, whatever the picks |
| Store.MarkAllDeletedDeletes | dm_lab2fhir_inc/lib/fhir_bundle.py:165-170 | every listed Procedure, MedicationStatement or Observation that exists ends deleted |
| DbStats.Alias | dm_lab2fhir_inc/lib/umm_db_lib.py:243-258 | the five `Obs_*` names select Observation with a code or `meta.source` filter; any other name is the type with no filter |
| DbStats.UpsertStampedNow | dm_lab2fhir_inc/lib/umm_db_lib.py:260-270 | an upserted row's `GREATEST(created_at, last_updated_at)` is at least the upsert's `NOW()` |
| DbStats.Stamp | dm_lab2fhir_inc/lib/umm_db_lib.py:260-270 | `GREATEST(created_at, last_updated_at)`: the larger one, skipping a NULL |
| DbStats.UpsRmNum | dm_lab2fhir_inc/lib/umm_db_lib.py:260-275 | upserted (live) plus removed (deleted) equals the selected rows, each counted once |
| DbStats.GetUpsRmNum | dm_lab2fhir_inc/lib/umm_db_lib.py:242-275 | the two queries a pass issues return the counts of `UpsRmNum`, which together count every selected row once |
| DbStats.PartitionSelected | dm_lab2fhir_inc/lib/umm_db_lib.py:260-275 | live and deleted selections partition the selection |
| DbStats.UpsRmNumMonotone | dm_lab2fhir_inc/lib/umm_db_lib.py:262-270 | both counts are non-increasing as the timestamp moves later |
| DbStats.RefSelection | dm_lab2fhir_inc/lib/umm_db_lib.py:278-306 | the left side of the patient and case joins: lab by source, vent/dia/icu by source and code, others by type |
| DbStats.PatIds | dm_lab2fhir_inc/lib/umm_db_lib.py:277-311 | each counted id is a live Patient referenced through `subject.reference` by a live row of the selection |
| DbStats.PatNum | dm_lab2fhir_inc/lib/umm_db_lib.py:301-306 | the distinct-patient count never exceeds the number of live Patients |
| DbStats.PatIdsOfLive | dm_lab2fhir_inc/lib/umm_db_lib.py:301-306 | the counted ids are at most the live Patient rows |
| DbStats.CaseIds | dm_lab2fhir_inc/lib/umm_db_lib.py:313-357 | for 'Encounter', exactly the Encounter ids whatever their flag; otherwise only live Encounters |
| DbStats.EncounterCaseNumKeys | dm_lab2fhir_inc/lib/umm_db_lib.py:345-347 | `get_case_num_fhir('Encounter')` depends only on the Encounter keys |
| DbStats.CancelPatientUncounted | dm_lab2fhir_inc/lib/umm_db_lib.py:301-306 | after cancelling Patient p, p is in no patient count |
| DbStats.DeliverUpsertsOnly | dm_lab2fhir_inc/lib/fhir_bundle.py:130-170 | a bundle with no cancellations delivers the upserts alone |
| DbStats.DeliverPatientCancelsOnly | dm_lab2fhir_inc/lib/fhir_bundle.py:130-170 | a bundle with only Patient cancellations delivers only the Patient cascades |
| DbStats.UpsertOnePatient | dm_lab2fhir_inc/test/unit_test.py:280-303 | upserting one Patient into a table with none selected gives counts (1, 0) |
| DbStats.CancelOnlyPatient | dm_lab2fhir_inc/test/unit_test.py:280-303 | cancelling the only selected Patient gives counts (0, 1) |
| DbStats.UpsertThenCancelPatient | dm_lab2fhir_inc/test/unit_test.py:280-303 | two delivered bundles, an upsert then its cancellation, move the counts from (1, 0) to (0, 1) |
| PassRows.Upserts | dm_lab2fhir_inc/lib/umm_on_fhir.py:97-121 | the rows with a falsy `stdat`, in order |
| PassRows.Cancels | dm_lab2fhir_inc/lib/umm_on_fhir.py:97-121 | the rows with a truthy `stdat`, in order |
| PassRows.RowStep | dm_lab2fhir_inc/lib/umm_on_fhir.py:97-121 | one more row extends exactly one of the two branches |
| PassRows.BranchesPartition | dm_lab2fhir_inc/lib/umm_on_fhir.py:97-121 | every row takes exactly one branch |
| PassRows.AddSingle | dm_lab2fhir_inc/lib/fhir_bundle.py:101-115 | `add_resources([r])` appends exactly the entry of r |
| PassRows.Within | dm_lab2fhir_inc/lib/umm_on_fhir.py:78-83 | the records a window selects lie strictly inside it |
| PassRows.WithinComplete | dm_lab2fhir_inc/lib/umm_on_fhir.py:78-83 | every record strictly inside the window is selected |
| PassRows.AdjacentWindows | dm_lab2fhir_inc/lib/umm_on_fhir.py:78-83 | a record stamped at the shared bound is in neither of two adjacent windows; any other inner record is in exactly one |
| PatientPass.RunOf | dm_lab2fhir_inc/lib/umm_on_fhir.py:95-124 | `valid_pat + invalid_pat` is the number of upsert rows; `rm_req_pat` is the number of cancellation rows; cancelled ids are the pseudonyms of `patnr`; added resources are '#sap-ish' Patients |
| PatientPass.Cancelled | dm_lab2fhir_inc/lib/umm_on_fhir.py:115-121 | the cancellation lists hold the removed ids under Patient only |
| PatientPass.ProcessPatients | dm_lab2fhir_inc/lib/umm_on_fhir.py:68-153 | the counters are those of the fold; the table is the delivered bundle; `ups_pat`/`rm_pat` are the read-back counts |
| PatientPass.CancelledPatientDeleted | dm_lab2fhir_inc/lib/umm_on_fhir.py:115-141 | every cancelled Patient that exists or was upserted ends soft-deleted |
| ConditionPass.RunOf | dm_lab2fhir_inc/lib/umm_on_fhir.py:531-558 | valid plus invalid is the upsert rows; `rm_req_con` is the cancellation rows; removed ids are `<psn>_<lfdnr>` |
| ConditionPass.Cancelled | dm_lab2fhir_inc/lib/umm_on_fhir.py:549-556 | the cancellation lists hold the removed ids under Condition only |
| ConditionPass.ProcessConditions | dm_lab2fhir_inc/lib/umm_on_fhir.py:496-585 | counters from the fold; the table is the delivered bundle with admissible picks; `ups_con`/`rm_con` are the read-back counts |
| ConditionPass.CancelIdMatchesConditionId | dm_lab2fhir_inc/lib/umm_on_fhir.py:549-556 | for the same case, the cancel id equals the mapped Condition id iff `lfdnr` is `str(diagnosis_nr)` |
| TransferPass.ObservationsOf | dm_lab2fhir_inc/lib/umm_on_fhir.py:418-444 | each upsert row yields the two observations, dialysis then ICU |
| TransferPass.RunOf | dm_lab2fhir_inc/lib/umm_on_fhir.py:416-459 | dialysis and ICU valid plus invalid each equal the upsert rows; `rm_req_res` is the cancellation rows; two ids per cancellation |
| TransferPass.RunRemovesCancelIds | dm_lab2fhir_inc/lib/umm_on_fhir.py:445-455 | the removed ids are `<psn>_icu`, `<psn>_dia` for each cancellation, in order |
| TransferPass.CancelIds | dm_lab2fhir_inc/lib/umm_on_fhir.py:445-455 | two cancel ids per cancellation row |
| TransferPass.CancelIdsAt | dm_lab2fhir_inc/lib/umm_on_fhir.py:445-455 | positions 2i and 2i+1 hold the ICU and dialysis ids of cancellation i |
| TransferPass.RunAddsSapIshObservations | dm_lab2fhir_inc/lib/umm_on_fhir.py:425-444 | every added resource is a '#sap-ish' Observation |
| TransferPass.Cancelled | dm_lab2fhir_inc/lib/umm_on_fhir.py:445-455 | the cancellation lists hold the removed ids under Observation only |
| TransferPass.ProcessTransfers | dm_lab2fhir_inc/lib/umm_on_fhir.py:374-494 | counters from the fold; the table is the delivered bundle; `Obs_dial`/`Obs_icu` read-back counts |
| TransferPass.ProcessRow | dm_lab2fhir_inc/lib/umm_on_fhir.py:414-455 | one row is one fold step: two validated observations, or two removal requests for a cancelled stay |
| TransferPass.StepCounts | dm_lab2fhir_inc/lib/umm_on_fhir.py:414-455 | an upsert row counts each of the two observations once, valid or invalid; a cancellation adds one removal request |
| TransferPass.AddObservations | dm_lab2fhir_inc/lib/umm_on_fhir.py:425-444 | each valid observation is added on its own, and the flags say which were valid |
| TransferPass.CancelObservations | dm_lab2fhir_inc/lib/umm_on_fhir.py:445-455 | requests Observation `<psn>_icu` then `<psn>_dia` |
| TransferPass.CancelIdsNeverMapped | dm_lab2fhir_inc/lib/umm_on_fhir.py:451-453 | the `_icu`/`_dia` cancel ids never equal the mapper's `-dia`/`-icu` ids |
| ProcedurePass.RunOf | dm_lab2fhir_inc/lib/umm_on_fhir.py:628-686 | on success, one procedure counted per upsert row, medications and statements in step, one request per cancellation row |
| ProcedurePass.StepCounts | dm_lab2fhir_inc/lib/umm_on_fhir.py:628-681 | one row adds exactly one counted procedure, or one cancellation request |
| ProcedurePass.CountedCounts | dm_lab2fhir_inc/lib/umm_on_fhir.py:638-668 | the procedure, medication and statement counters of one mapped row |
| ProcedurePass.Cancelled | dm_lab2fhir_inc/lib/umm_on_fhir.py:669-681 | the cancellation lists hold Procedure and MedicationStatement ids only |
| ProcedurePass.ProcessProcedures | dm_lab2fhir_inc/lib/umm_on_fhir.py:587-730 | fails iff the fold fails (an empty or missing OPS code), leaving the table; otherwise counters from the fold, the delivered table and three read-back counts |
| ProcedurePass.CollectRows | dm_lab2fhir_inc/lib/umm_on_fhir.py:626-681 | the row loop computes the fold's counters and bundle |
| ProcedurePass.ProcessRow | dm_lab2fhir_inc/lib/umm_on_fhir.py:628-681 | one row is one fold step |
| ProcedurePass.UpsertRow | dm_lab2fhir_inc/lib/umm_on_fhir.py:629-668 | maps the row and adds the valid resources, or fails with the mapper's error |
| ProcedurePass.AddProcedure | dm_lab2fhir_inc/lib/umm_on_fhir.py:641-650 | adds the Procedure iff valid and counts it |
| ProcedurePass.AddMedication | dm_lab2fhir_inc/lib/umm_on_fhir.py:651-659 | adds the Medication iff present and valid and counts it |
| ProcedurePass.AddStatement | dm_lab2fhir_inc/lib/umm_on_fhir.py:660-668 | adds the MedicationStatement iff present and valid and counts it |
| ProcedurePass.AddMapped | dm_lab2fhir_inc/lib/umm_on_fhir.py:641-668 | the three additions in order |
| ProcedurePass.CancelRow | dm_lab2fhir_inc/lib/umm_on_fhir.py:669-681 | a '6' code requests MedicationStatement `<psn>_<lnric>_med_stat`, else Procedure `<psn>_<lnric>` |
| ProcedurePass.FailureSticks | dm_lab2fhir_inc/lib/umm_on_fhir.py:628-681 | after the first failing row the pass's result is that failure |
| ProcedurePass.RunSucceedsIffOpsCodes | dm_lab2fhir_inc/lib/umm_on_fhir.py:628-668 | the pass succeeds iff every upsert row has a truthy OPS code |
| ProcedurePass.CancelNamesMappedId | dm_lab2fhir_inc/lib/umm_on_fhir.py:669-681 | the cancel id is the mapped statement or procedure id of the same case and number |
| LabPass.RunOf | dm_lab2fhir_inc/lib/umm_on_fhir.py:854-868 | every row is kept or counted invalid, never both |
| LabPass.LabResources | dm_lab2fhir_inc/lib/umm_on_fhir.py:867 | the list handed to the single `add_resources` call |
| LabPass.ProcessLabResults | dm_lab2fhir_inc/lib/umm_on_fhir.py:839-893 | `valid_obs` is the list length, `invalid_obs` the invalid rows; the table is the delivered bundle; `Obs_lab` read-back counts |
| LabPass.CollectObservations | dm_lab2fhir_inc/lib/umm_on_fhir.py:854-866 | the row loop keeps exactly the fold's observations and counts exactly its invalid rows |
| LabPass.DeliverObservations | dm_lab2fhir_inc/lib/umm_on_fhir.py:867 | a fresh bundle with one `add_resources` call delivers the deduplicated observations and no cancellations |
| LabPass.MapRow | dm_lab2fhir_inc/lib/umm_on_fhir.py:857-862 | pseudonymize, `read` and `map` one row |
| LabPass.KeptAreValidMappings | dm_lab2fhir_inc/lib/umm_on_fhir.py:856-866 | every kept observation is valid and is the mapping of some row |
| LabPass.EntriesAtMostValid | dm_lab2fhir_inc/lib/umm_on_fhir.py:867-868 | the bundle has at most `valid_obs` entries, exactly that many when result ids are distinct |
| EncounterPass.AddCall | dm_lab2fhir_inc/lib/fhir_bundle.py:101-115 | one `add_resources` call extends the entries by at most its input |
| EncounterPass.DiagnosesOf | dm_lab2fhir_inc/lib/umm_on_fhir.py:213-224 | each diagnosis is kept or counted invalid |
| EncounterPass.KeptDiagnosesValid | dm_lab2fhir_inc/lib/umm_on_fhir.py:213-224 | every kept Condition is valid and is the mapping of some diagnosis |
| EncounterPass.RankedRefs | dm_lab2fhir_inc/lib/umm_on_fhir.py:226-235 | one ranked reference "Condition/<id>" per kept Condition, in order |
| EncounterPass.ConditionResources | dm_lab2fhir_inc/lib/umm_on_fhir.py:226-235 | the Condition list handed to `add_resources`, in order |
| EncounterPass.DepartmentsOf | dm_lab2fhir_inc/lib/umm_on_fhir.py:247-272 | on success, each department gives a sub-encounter or an invalid count, and the location counters stay within the list |
| EncounterPass.DepartmentsSucceedIff | dm_lab2fhir_inc/lib/umm_on_fhir.py:247-260 | the department loop succeeds iff every department has transfer rows, an integer code and begun timestamps |
| EncounterPass.DepartmentFailureSticks | dm_lab2fhir_inc/lib/umm_on_fhir.py:247-272 | after the first failing department the result is that failure |
| EncounterPass.SubsPartOf | dm_lab2fhir_inc/lib/umm_on_fhir.py:247-272 | every kept sub-encounter is part of Encounter/<psn> |
| EncounterPass.SubResources | dm_lab2fhir_inc/lib/umm_on_fhir.py:292 | the sub-encounter list handed to `add_resources` |
| EncounterPass.LocationResources | dm_lab2fhir_inc/lib/umm_on_fhir.py:293 | the location list handed to `add_resources` |
| EncounterPass.RunOf | dm_lab2fhir_inc/lib/umm_on_fhir.py:198-321 | on success, `valid_enc + invalid_enc` and `valid_obs + invalid_obs` equal the upsert rows, and `rm_req_enc` equals the cancellation rows and both removed-id lists |
| EncounterPass.Cancelled | dm_lab2fhir_inc/lib/umm_on_fhir.py:305-314 | the cancellation lists hold Encounter and Observation ids only |
| EncounterPass.ProcessEncounters | dm_lab2fhir_inc/lib/umm_on_fhir.py:155-372 | fails iff the fold fails, leaving the table; otherwise the counters from the fold, the delivered table and the Condition, Encounter and `Obs_vent` read-back counts |
| EncounterPass.CollectRows | dm_lab2fhir_inc/lib/umm_on_fhir.py:196-314 | the row loop computes the fold's counters and bundle |
| EncounterPass.ProcessRow | dm_lab2fhir_inc/lib/umm_on_fhir.py:200-314 | one row is one fold step |
| EncounterPass.StepCounts | dm_lab2fhir_inc/lib/umm_on_fhir.py:200-314 | an upsert row counts one encounter and one ventilation observation, valid or invalid; a cancellation adds one removal request |
| EncounterPass.UpsertRow | dm_lab2fhir_inc/lib/umm_on_fhir.py:200-302 | the upsert branch of one row: diagnoses, departments, ventilation, main encounter |
| EncounterPass.MapDiagnoses | dm_lab2fhir_inc/lib/umm_on_fhir.py:213-224 | the diagnosis loop computes the kept list and the invalid count |
| EncounterPass.RankConditions | dm_lab2fhir_inc/lib/umm_on_fhir.py:226-235 | the ranking loop computes the ranked references and the Condition list |
| EncounterPass.MapDepartments | dm_lab2fhir_inc/lib/umm_on_fhir.py:247-272 | the department loop computes the department totals |
| EncounterPass.BookDepartment | dm_lab2fhir_inc/lib/umm_on_fhir.py:258-272 | the bookkeeping of one department, as written |
| EncounterPass.AddVentilation | dm_lab2fhir_inc/lib/umm_on_fhir.py:274-283 | adds the ventilation Observation iff valid and counts it |
| EncounterPass.AddMain | dm_lab2fhir_inc/lib/umm_on_fhir.py:285-302 | a valid main encounter adds itself, the Conditions, sub-encounters and locations in four calls; an invalid one adds nothing and takes back the list lengths |
| EncounterPass.AddCase | dm_lab2fhir_inc/lib/umm_on_fhir.py:289-292 | four `add_resources` calls in source order, cancellations untouched |
| EncounterPass.CancelRow | dm_lab2fhir_inc/lib/umm_on_fhir.py:305-314 | requests Encounter `<psn>` and Observation `<psn>_vent` |
| EncounterPass.FailureSticks | dm_lab2fhir_inc/lib/umm_on_fhir.py:198-314 | after the first failing row the pass's result is that failure |
| EncounterPass.RunCancels | dm_lab2fhir_inc/lib/umm_on_fhir.py:305-314 | removal i is Encounter `<psn>` and Observation `<psn>_vent` of cancellation row i |
| EncounterPass.CancelMissesVentilation | dm_lab2fhir_inc/lib/umm_on_fhir.py:310-313 | the Encounter cancel id is the main encounter's id, but the `_vent` id never is the ventilation Observation's `-vent` id |
| EncounterPass.CaseReferencesMain | dm_lab2fhir_inc/lib/umm_on_fhir.py:205-302 | the encounter's diagnosis refs are the Condition refs in order; Conditions, sub-encounters and the ventilation Observation all reference the main encounter |
| EncounterPass.InvalidMainAddsNoChildren | dm_lab2fhir_inc/lib/umm_on_fhir.py:285-302 | an invalid main encounter adds only the ventilation entry and leaves the Condition and sub-encounter counters where they were |
| EncounterPass.ValidCountersNonNegative | dm_lab2fhir_inc/lib/umm_on_fhir.py:213-302 | `valid_con`, `valid_subenc` and `invalid_loc` never go negative |
| EncounterPass.LocationCounterGoesNegative | dm_lab2fhir_inc/lib/umm_on_fhir.py:258-302 | one department with one location, an invalid sub-encounter and an invalid main encounter give `valid_loc` -1 |
| EncounterPass.LocationsAddedUncounted | dm_lab2fhir_inc/lib/umm_on_fhir.py:258-293 | with an invalid sub-encounter and a valid main encounter, the location is added but `valid_loc` is 0 |
| EncounterPass.CorrectedStepCountsLocations | dm_lab2fhir_inc/lib/umm_on_fhir.py:258-272 | the corrected step keeps `valid_loc` equal to the location list length |
| EncounterPass.CorrectedInvariant | dm_lab2fhir_inc/lib/umm_on_fhir.py:247-272 | over all departments, the corrected `valid_loc` equals the location list length and `invalid_loc` is non-negative |
| EncounterPass.CorrectedLocationsCounted | dm_lab2fhir_inc/lib/umm_on_fhir.py:247-302 | with the corrected step, the case adds to `valid_loc` exactly the locations handed to `add_resources` |
| PatientMapper.GenderField | dm_lab2fhir_inc/lib/mapper_dmpat2pat.py:28-30 | empty iff the sex is falsy; otherwise as long as the sex, with no capital letter left and every other character kept |
| PatientMapper.GenderCode | dm_lab2fhir_inc/lib/mapper_dmpat2pat.py:68-76 | 'm' male, 'w' female, 'x' other, anything else unknown, each both ways |
| PatientMapper.MapPatient | dm_lab2fhir_inc/lib/mapper_dmpat2pat.py:40-99 | id and first identifier are the pseudonym; two identifiers iff insurance id truthy; gender, deceased iff flag truthy, one official name, '#sap-ish' |
| PatientMapper.PatientResource | dm_lab2fhir_inc/lib/mapper_dmpat2pat.py:40-99 | the stored Patient has the mapped id, no subject and the source |
| PatientMapper.GenderIgnoresCase | dm_lab2fhir_inc/lib/mapper_dmpat2pat.py:28-30 | 'M' and 'm' both give male, 'W' and 'w' both female |
| PatientMapper.GenderFieldIgnoresCase | dm_lab2fhir_inc/lib/mapper_dmpat2pat.py:28-30 | lower-casing the sex first gives the same field, for every text |
| PatientMapper.NoSexUnknown | dm_lab2fhir_inc/lib/mapper_dmpat2pat.py:68-76 | a missing or empty sex gives unknown |
| PatientMapper.PatientKeyIsPseudonym | dm_lab2fhir_inc/lib/mapper_dmpat2pat.py:43 | two mapped Patients get the same store key iff their pseudonyms are equal |
| ConditionMapper.NatToStringInjective | dm_lab2fhir_inc/lib/mapper_dmdiag2cond.py:49 | `str` of different numbers gives different texts |
| ConditionMapper.ConditionIdsDistinct | dm_lab2fhir_inc/lib/mapper_dmdiag2cond.py:49 | different diagnosis numbers of one case give different ids |
| ConditionMapper.FullCodeSplits | dm_lab2fhir_inc/lib/mapper_dmdiag2cond.py:62-64 | for a blank-free ICD code, splitting the full code on blanks gives back the ICD code, then the words of the supplementary code when that is truthy |
| ConditionMapper.CodeExtensions | dm_lab2fhir_inc/lib/mapper_dmdiag2cond.py:70-92 | no extension without a supplementary code; else main-cross, then '!' and '*' extensions when those characters occur, each with them removed |
| ConditionMapper.MainCrossCode | dm_lab2fhir_inc/lib/mapper_dmdiag2cond.py:70-76 | the main-cross code holds exactly the ICD characters outside the removed class; a clean code is kept verbatim, and a "+" between clean parts is cut out in place |
| ConditionMapper.BodySite | dm_lab2fhir_inc/lib/mapper_dmdiag2cond.py:110-126 | none for a falsy laterality; 'L' left, 'R' right, 'B' left then right, other values [] |
| ConditionMapper.Rank | dm_lab2fhir_inc/lib/mapper_dmdiag2cond.py:128-130 | 1 iff the principal flag is 1, else 2 |
| ConditionMapper.MapCondition | dm_lab2fhir_inc/lib/mapper_dmdiag2cond.py:47-136 | returns the Condition and its rank: id, identifier, code, extensions, references, body site, '#sap-ish' |
| ConditionMapper.ConditionResource | dm_lab2fhir_inc/lib/mapper_dmdiag2cond.py:47-136 | the stored Condition has the id, subject, encounter, code and source |
| EncounterMapper.AdmissionReasonLookup | dm_lab2fhir_inc/lib/mapper_dmenc2enc.py:35-48 | succeeds iff `int(code[:2])` and `int(code[2:4])` parse; the text joins table 0 and table 1 entries |
| EncounterMapper.ShortAdmissionCodeFails | dm_lab2fhir_inc/lib/mapper_dmenc2enc.py:35-48 | a two-character admission code fails, since `code[2:4]` is empty |
| EncounterMapper.DischargeReasonLookup | dm_lab2fhir_inc/lib/mapper_dmenc2enc.py:50-65 | succeeds iff `int(code[:2])` and `int(code[2])` work; a short code is an IndexError; returns text, disposition code and display |
| EncounterMapper.ShortDischargeCodeFails | dm_lab2fhir_inc/lib/mapper_dmenc2enc.py:50-65 | a two-digit discharge code raises IndexError |
| EncounterMapper.CharAt | dm_lab2fhir_inc/lib/mapper_dmenc2enc.py:56 | `code[2]` succeeds iff the index is in range |
| EncounterMapper.EncounterStatus | dm_lab2fhir_inc/lib/mapper_dmenc2enc.py:86-95 | "finished" iff discharge present, else "in-progress" |
| EncounterMapper.EncounterOf | dm_lab2fhir_inc/lib/mapper_dmenc2enc.py:67-145 | fails iff a truthy reason's lookup fails; id and identifier are the pseudonym; subject, status, period; the extensions and disposition of `ReasonsOf`; one diagnosis per ranked reference |
| EncounterMapper.ReasonsOf | dm_lab2fhir_inc/lib/mapper_dmenc2enc.py:97-125 | the admission extension only for a truthy admission reason, then the discharge extension and the disposition only for a truthy discharge reason; fails iff a truthy reason's lookup fails |
| EncounterMapper.MapReasons | dm_lab2fhir_inc/lib/mapper_dmenc2enc.py:97-125 | the two reason branches, appending in order, build what `ReasonsOf` describes |
| EncounterMapper.MapEncounter | dm_lab2fhir_inc/lib/mapper_dmenc2enc.py:67-145 | the loop over ranked references builds the same Encounter |
| EncounterMapper.DiagnosisRefsOf | dm_lab2fhir_inc/lib/mapper_dmenc2enc.py:127-139 | the condition references of the diagnosis list, in order |
| EncounterMapper.DiagnosisRefs | dm_lab2fhir_inc/lib/mapper_dmenc2enc.py:127-139 | no references when `diagnosis` is absent, else one per element |
| EncounterMapper.EncounterResource | dm_lab2fhir_inc/lib/mapper_dmenc2enc.py:67-145 | the stored Encounter has the id, subject, diagnosis references and source, and no `partOf` |
| SubEncounterMapper.DepNameLookup | dm_lab2fhir_inc/lib/mapper_dmdep2enc.py:48-54 | succeeds iff the code parses; table entry or the missing text |
| SubEncounterMapper.LocationOf | dm_lab2fhir_inc/lib/mapper_dmdep2enc.py:100-110 | the Location id and identifier are the hash of the unit name |
| SubEncounterMapper.SameUnitSameLocation | dm_lab2fhir_inc/lib/mapper_dmdep2enc.py:104-105 | rows with the same unit name give the same Location key |
| SubEncounterMapper.LinkStatus | dm_lab2fhir_inc/lib/mapper_dmdep2enc.py:112-119 | "completed" iff the end timestamp is present, else "active" |
| SubEncounterMapper.LinkOf | dm_lab2fhir_inc/lib/mapper_dmdep2enc.py:111-122 | the link references Location/<hash of unit name> |
| SubEncounterMapper.ValidRows | dm_lab2fhir_inc/lib/mapper_dmdep2enc.py:100-133 | the rows whose location link validates, in order |
| SubEncounterMapper.ValidRowsValid | dm_lab2fhir_inc/lib/mapper_dmdep2enc.py:123-131 | every kept row is an input row with a valid link |
| SubEncounterMapper.AllValidKept | dm_lab2fhir_inc/lib/mapper_dmdep2enc.py:123-131 | when every link is valid, every row is kept |
| SubEncounterMapper.NoneValidDropped | dm_lab2fhir_inc/lib/mapper_dmdep2enc.py:123-131 | when no link is valid, no row is kept |
| SubEncounterMapper.Links | dm_lab2fhir_inc/lib/mapper_dmdep2enc.py:100-133 | one link per row, in order |
| SubEncounterMapper.Locations | dm_lab2fhir_inc/lib/mapper_dmdep2enc.py:100-133 | one Location per row, in order |
| SubEncounterMapper.LinkLocations | dm_lab2fhir_inc/lib/mapper_dmdep2enc.py:98-133 | the location loop: fails iff some begin timestamp is missing; links and locations grow together for valid rows only; `added_res_loc + res_loc_invalid` is the row count |
| SubEncounterMapper.LinkRow | dm_lab2fhir_inc/lib/mapper_dmdep2enc.py:100-131 | one location row: link and location are appended together iff the link validates; exactly one of the two counters grows |
| SubEncounterMapper.SubEncounterOf | dm_lab2fhir_inc/lib/mapper_dmdep2enc.py:30-133 | fails iff no rows, a non-integer code or a missing begin; period from the first begin to the last end; "finished" iff that end exists; `partOf` and subject; counters |
| SubEncounterMapper.MapSubEncounter | dm_lab2fhir_inc/lib/mapper_dmdep2enc.py:56-133 | `read` then `map` compute the same result |
| SubEncounterMapper.SubEncounterResource | dm_lab2fhir_inc/lib/mapper_dmdep2enc.py:56-95 | the stored sub-encounter keeps its `partOf` and identifier system |
| SubEncounterMapper.LocationResource | dm_lab2fhir_inc/lib/mapper_dmdep2enc.py:100-110 | the stored Location has the hashed id |
| P21Timing.EffectivePeriod | dm_lab2fhir_inc/lib/mapper_dmenc2obs.py:43-57 | start is the admission; an end only when admission and discharge are both present |
| P21Timing.ObservationStatus | dm_lab2fhir_inc/lib/mapper_dmenc2obs.py:38-50 | "final" iff admission and discharge are both present, else "preliminary" |
| P21Timing.ClosedIffFinal | dm_lab2fhir_inc/lib/mapper_dmtrans2obs.py:43-55 | the period has an end iff the status is "final" |
| VentilationMapper.MapVentilation | dm_lab2fhir_inc/lib/mapper_dmenc2obs.py:26-82 | id and identifier `<enc psn>-vent`; code 74201-5; references; a value iff the hours are truthy; status and period |
| VentilationMapper.VentilationResource | dm_lab2fhir_inc/lib/mapper_dmenc2obs.py:36-82 | the stored Observation keeps id, code, source and references |
| TransferMapper.MapTransfer | dm_lab2fhir_inc/lib/mapper_dmtrans2obs.py:27-111 | [dialysis, ICU] with ids `-dia`/`-icu`; codes; dialysis count or none; ICU days only when truthy; shared status |
| TransferMapper.TransferResource | dm_lab2fhir_inc/lib/mapper_dmtrans2obs.py:41-111 | the stored Observation keeps id, code, source and references |
| TransferMapper.DialysisIcuDistinct | dm_lab2fhir_inc/lib/mapper_dmtrans2obs.py:60-84 | the two ids of one case differ |
| ProcedureMapper.DrugIdsDistinct | dm_lab2fhir_inc/lib/mapper_dmpro2pro_med.py:66-172 | the three ids of one procedure differ pairwise |
| ProcedureMapper.Substances | dm_lab2fhir_inc/lib/mapper_dmpro2pro_med.py:55-86 | the drug name as rendered (first character dropped), split on '-' when the combination cell is non-empty; never empty |
| ProcedureMapper.CombinationSplits | dm_lab2fhir_inc/lib/mapper_dmpro2pro_med.py:85-86 | a combination "a-b" gives the substances [a, b] |
| ProcedureMapper.Ingredients | dm_lab2fhir_inc/lib/mapper_dmpro2pro_med.py:88-109 | ["UNKLAR"] gives no ingredients; else one ingredient per substance, in order |
| ProcedureMapper.StatementStatus | dm_lab2fhir_inc/lib/mapper_dmpro2pro_med.py:131-141 | "completed" iff admission and discharge are present, else "active" |
| ProcedureMapper.DoseBound | dm_lab2fhir_inc/lib/mapper_dmpro2pro_med.py:146-156 | no bound iff the rendered dosage cell is "NaN" |
| ProcedureMapper.Spaces | dm_lab2fhir_inc/lib/mapper_dmpro2pro_med.py:213-223 | the indentation kept inside the body-site display literals: n spaces |
| ProcedureMapper.MedicationOf | dm_lab2fhir_inc/lib/mapper_dmpro2pro_med.py:50-164 | Medication and statement exist iff a drug row exists; ids, ingredients, medication reference, status, dose bounds |
| ProcedureMapper.MapMedication | dm_lab2fhir_inc/lib/mapper_dmpro2pro_med.py:50-164 | the ingredient loop builds the same pair |
| ProcedureMapper.FirstOpsChar | dm_lab2fhir_inc/lib/mapper_dmpro2pro_med.py:199 | `ops_kode[0]` succeeds iff the code is present and non-empty |
| ProcedureMapper.BodySite | dm_lab2fhir_inc/lib/mapper_dmpro2pro_med.py:206-225 | none iff the laterality is falsy; 'L' left, 'R' right, 'B' left then right, other values [] |
| ProcedureMapper.ProcedureOf | dm_lab2fhir_inc/lib/mapper_dmpro2pro_med.py:166-231 | fails iff the OPS code is missing or empty; medications only for a '6' code; id, identifier, status, body site |
| ProcedureMapper.MapProcedure | dm_lab2fhir_inc/lib/mapper_dmpro2pro_med.py:166-231 | the method computes the same result |
| ProcedureMapper.ProcedureResource | dm_lab2fhir_inc/lib/mapper_dmpro2pro_med.py:166-231 | the stored Procedure keeps id and subject |
| ProcedureMapper.MedicationResource | dm_lab2fhir_inc/lib/mapper_dmpro2pro_med.py:60-108 | the stored Medication has the id and no subject |
| ProcedureMapper.StatementResource | dm_lab2fhir_inc/lib/mapper_dmpro2pro_med.py:110-164 | the stored statement keeps subject and context |
| LabMapper.NormalizeUnit | dm_lab2fhir_inc/lib/mapper_dmlab2obs.py:100-108 | the four legacy units map to UCUM units; others are unchanged |
| LabMapper.NormalizeUnitIdempotent | dm_lab2fhir_inc/lib/mapper_dmlab2obs.py:100-108 | normalizing twice equals normalizing once |
| LabMapper.NormalizedNotLegacy | dm_lab2fhir_inc/lib/mapper_dmlab2obs.py:100-108 | no output unit is a legacy input |
| LabMapper.NormalizeStep | dm_lab2fhir_inc/lib/mapper_dmlab2obs.py:97-108 | normalizes only with a value, a real LOINC code and a truthy unit |
| LabMapper.ConvertStep | dm_lab2fhir_inc/lib/mapper_dmlab2obs.py:110-120 | an accepted converter result replaces code, value and unit, with quotes doubled; otherwise nothing changes |
| LabMapper.Prepared | dm_lab2fhir_inc/lib/mapper_dmlab2obs.py:97-127 | the in-place rewrites: only unit, code, value and comparator may change, and no equality comparator remains |
| LabMapper.PreparedIdempotent | dm_lab2fhir_inc/lib/mapper_dmlab2obs.py:97-127 | without a converter, preparing twice equals preparing once |
| LabMapper.ValueOf | dm_lab2fhir_inc/lib/mapper_dmlab2obs.py:97-136 | a quantity iff a value exists; a string iff no value and a truthy text; never both |
| LabMapper.RangeOf | dm_lab2fhir_inc/lib/mapper_dmlab2obs.py:143-153 | a reference range iff both bounds exist |
| LabMapper.RangeInValueUnit | dm_lab2fhir_inc/lib/mapper_dmlab2obs.py:143-153 | the range uses the quantity's unit |
| LabMapper.Interpretation | dm_lab2fhir_inc/lib/mapper_dmlab2obs.py:174-189 | N Normal, L Low, H High, other truthy flags Unknown, none for a falsy flag |
| LabMapper.ObservationOf | dm_lab2fhir_inc/lib/mapper_dmlab2obs.py:72-191 | id and identifier `str(result_id)`; references; "final"; value, code, range, method, interpretation, '#laboratory' |
| LabMapper.LegacyUnitReplaced | dm_lab2fhir_inc/lib/mapper_dmlab2obs.py:97-108 | a convertible result with a legacy unit is stored with the normalized unit |
| LabMapper.LabMapper.constructor | dm_lab2fhir_inc/lib/mapper_dmlab2obs.py:25-29 | systems and converter set, no record read |
| LabMapper.LabMapper.Read | dm_lab2fhir_inc/lib/mapper_dmlab2obs.py:31-53 | stores the pseudonyms and the record |
| LabMapper.LabMapper.Map | dm_lab2fhir_inc/lib/mapper_dmlab2obs.py:72-191 | rewrites the stored record in place and returns its Observation; a KeyError before any `read` |
| LabMapper.LabResource | dm_lab2fhir_inc/lib/mapper_dmlab2obs.py:72-191 | the stored Observation keeps id, code, source and references |
| LufuRecord.JoinFields | dm_lab2fhir_inc/lib/mapper_lufufall2obs.py:185-191 | the `read` loop joins the column renderings, skipping `quelldatenjahr` when asked |
| LufuRecord.YearIgnored | dm_lab2fhir_inc/lib/mapper_lufufall2proc.py:56-62 | records differing only in the source year give the same text |
| LufuRecord.NoYearColumn | dm_lab2fhir_inc/lib/mapper_lufufall2rep.py:56-60 | without a source-year column, both renderings agree |
| LufuRecord.YearCounted | dm_lab2fhir_inc/lib/mapper_lufufall2rep.py:56-60 | a non-empty source year makes the report text differ |
| LufuRecord.JoinedLength | dm_lab2fhir_inc/lib/mapper_lufufall2rep.py:56-60 | the unskipped text is longer by exactly the source-year renderings |
| LufuObservationMapper.Present | dm_lab2fhir_inc/lib/mapper_lufufall2obs.py:213-239 | the items of one section pattern with a present value |
| LufuObservationMapper.PresentSelects | dm_lab2fhir_inc/lib/mapper_lufufall2obs.py:213-239 | every selected item matches the pattern and has a value |
| LufuObservationMapper.PresentNone | dm_lab2fhir_inc/lib/mapper_lufufall2obs.py:213-239 | no matching valued item gives no selection |
| LufuObservationMapper.ScanItems | dm_lab2fhir_inc/lib/mapper_lufufall2obs.py:212-239 | the scan loop computes the per-section lists |
| LufuObservationMapper.PrePost | dm_lab2fhir_inc/lib/mapper_lufufall2obs.py:241-252 | pre only: the plain key with the pre items; both: PRE then POST; post only: POST |
| LufuObservationMapper.SectionParams | dm_lab2fhir_inc/lib/mapper_lufufall2obs.py:241-254 | B, then SP, then TRA; at most five sections, all known keys |
| LufuObservationMapper.OnlyUnmappedSections | dm_lab2fhir_inc/lib/mapper_lufufall2obs.py:230-254 | a record with only BGA and FE values gives no observation |
| LufuObservationMapper.PreOnlyUsesPlainKey | dm_lab2fhir_inc/lib/mapper_lufufall2obs.py:241-242 | B pre values without post values give the 'B_' section |
| LufuObservationMapper.Find | dm_lab2fhir_inc/lib/mapper_lufufall2obs.py:345 | the target item's value, when the key exists |
| LufuObservationMapper.CodingsOf | dm_lab2fhir_inc/lib/mapper_lufufall2obs.py:312-332 | a LOINC coding and an i2b2 coding, each when listed; none iff neither table lists the key |
| LufuObservationMapper.ComponentOf | dm_lab2fhir_inc/lib/mapper_lufufall2obs.py:305-355 | only 'actual' items with a coding give a component; reference low equals high and is the target value |
| LufuObservationMapper.ComponentsOf | dm_lab2fhir_inc/lib/mapper_lufufall2obs.py:305-357 | at most one component per item |
| LufuObservationMapper.ComponentsFailurePersists | dm_lab2fhir_inc/lib/mapper_lufufall2obs.py:305-357 | after the first failing item the result is that failure |
| LufuObservationMapper.TargetsGiveNoComponents | dm_lab2fhir_inc/lib/mapper_lufufall2obs.py:305-306 | items without 'actual' give no components |
| LufuObservationMapper.TargetsOnly | dm_lab2fhir_inc/lib/mapper_lufufall2obs.py:363-366 | a section without 'actual' items gives no observation |
| LufuObservationMapper.Effective | dm_lab2fhir_inc/lib/mapper_lufufall2obs.py:296-301 | date and time joined iff both are present |
| LufuObservationMapper.SectionCodingListed | dm_lab2fhir_inc/lib/mapper_lufufall2obs.py:267-281 | every section an Observation is built for gets a listed SNOMED code (never "No Text") with a listed display (never the default text) |
| LufuObservationMapper.SectionObservation | dm_lab2fhir_inc/lib/mapper_lufufall2obs.py:265-366 | none iff no components; else hashed id, identifier, code, references, components, "final", '#lufu-cwd' |
| LufuObservationMapper.MapItems | dm_lab2fhir_inc/lib/mapper_lufufall2obs.py:265-366 | the component loop computes the same result |
| LufuObservationMapper.ObservationsOf | dm_lab2fhir_inc/lib/mapper_lufufall2obs.py:241-257 | no placeholder: every observation has components and '#lufu-cwd' |
| LufuObservationMapper.ObservationsFailurePersists | dm_lab2fhir_inc/lib/mapper_lufufall2obs.py:241-257 | after the first failing section the result is that failure |
| LufuObservationMapper.MapSpec | dm_lab2fhir_inc/lib/mapper_lufufall2obs.py:193-257 | at most five observations, each non-empty with '#lufu-cwd' |
| LufuObservationMapper.Map | dm_lab2fhir_inc/lib/mapper_lufufall2obs.py:193-257 | the scan and section loops compute the same result |
| LufuObservationMapper.MapSections | dm_lab2fhir_inc/lib/mapper_lufufall2obs.py:241-257 | the section loop computes the same result |
| LufuObservationMapper.ObservationIds | dm_lab2fhir_inc/lib/mapper_lufufall2obs.py:272-276 | every id is the hash of the record text (the columns joined without the source year) and a section key |
| LufuObservationMapper.ObservationIdsIgnoreYear | dm_lab2fhir_inc/lib/mapper_lufufall2obs.py:185-191 | a record differing only in the source-year column gets ids hashed from the same text |
| LufuObservationMapper.LufuResource | dm_lab2fhir_inc/lib/mapper_lufufall2obs.py:265-366 | the stored Observation keeps id, source, code and references |
| LufuReportMapper.Conclusion | dm_lab2fhir_inc/lib/mapper_lufufall2rep.py:91-99 | assessment first, then remark, then recommendation |
| LufuReportMapper.ConclusionEmpty | dm_lab2fhir_inc/lib/mapper_lufufall2rep.py:91-97 | empty iff all three fields are None or "" |
| LufuReportMapper.ConclusionAllParts | dm_lab2fhir_inc/lib/mapper_lufufall2rep.py:91-99 | with all three present, the exact conclusion text |
| LufuReportMapper.MapReport | dm_lab2fhir_inc/lib/mapper_lufufall2rep.py:62-101 | fails iff date or time is missing; hashed id, identifier `str(untersuchung_id)`, references, OPS '1-71', "final" |
| LufuReportMapper.ReportResource | dm_lab2fhir_inc/lib/mapper_lufufall2rep.py:62-101 | the stored report keeps id and references |
| LufuProcedureMapper.OpsCode | dm_lab2fhir_inc/lib/mapper_lufufall2proc.py:69-74 | '1-710' iff the section is 'B', else '1-71' |
| LufuProcedureMapper.DisplayAlwaysListed | dm_lab2fhir_inc/lib/mapper_lufufall2proc.py:69-74 | both chosen codes have a listed OPS text |
| LufuProcedureMapper.MapProcedure | dm_lab2fhir_inc/lib/mapper_lufufall2proc.py:64-107 | fails iff the exam date is missing; id and identifier from section and record text; OPS code and text; "completed"; references |
| LufuProcedureMapper.IdIgnoresYear | dm_lab2fhir_inc/lib/mapper_lufufall2proc.py:56-85 | records differing only in the source year get the same id |
| LufuProcedureMapper.LufuProcedureResource | dm_lab2fhir_inc/lib/mapper_lufufall2proc.py:64-107 | the stored Procedure keeps id and references |
| LoincLookup.CodeLookup | dm_lab2fhir_inc/lib/mapper_lufu_loinc_lookup.py:122-134 | the table code, or 'No Code', which is no listed code |
| LoincLookup.DisplayLookup | dm_lab2fhir_inc/lib/mapper_lufu_loinc_lookup.py:137-149 | the table display, or 'No Code-Display Value' for an unlisted code |
| LoincLookup.DisplayCoversCodes | dm_lab2fhir_inc/lib/mapper_lufu_loinc_lookup.py:23-120 | every listed key's code has a display |
| LoincLookup.CodeTableNotInjective | dm_lab2fhir_inc/lib/mapper_lufu_loinc_lookup.py:46-47 | two keys share the code 91980-3 |
| I2b2Lookup.CodeLookup | dm_lab2fhir_inc/lib/mapper_lufu_i2b2basecode_lookup.py:95-107 | the table value, which starts with "LCS-MRCM:pul:", or 'No Code' |
| I2b2Lookup.KeysEndInActual | dm_lab2fhir_inc/lib/mapper_lufu_i2b2basecode_lookup.py:24-86 | every key ends in the last letter of "_actual" |
| I2b2Lookup.SuffixesDistinct | dm_lab2fhir_inc/lib/mapper_lufu_i2b2basecode_lookup.py:24-86 | no two item names share a code suffix |
| I2b2Lookup.CodeTableInjective | dm_lab2fhir_inc/lib/mapper_lufu_i2b2basecode_lookup.py:24-86 | the base codes are pairwise distinct, so a code names one item |
| I2b2Lookup.TargetItemsUnlisted | dm_lab2fhir_inc/lib/mapper_lufu_i2b2basecode_lookup.py:24-107 | a '_target' item gives 'No Code' |
| SnomedLookup.CodeLookup | dm_lab2fhir_inc/lib/mapper_lufu_snomed_lookup.py:39-51 | the section code, or 'No Text' for an unlisted key |
| SnomedLookup.DisplayLookup | dm_lab2fhir_inc/lib/mapper_lufu_snomed_lookup.py:54-66 | the display, or 'No Code-Display Value' for an unlisted code |
| SnomedLookup.SectionCodes | dm_lab2fhir_inc/lib/mapper_lufu_snomed_lookup.py:23-31 | the seven section keys and their four codes |
| SnomedLookup.DisplayCoversCodes | dm_lab2fhir_inc/lib/mapper_lufu_snomed_lookup.py:23-37 | every code of the code table has a display |
| OpsLookup.CodeLookup | dm_lab2fhir_inc/lib/mapper_lufu_procedure_lookup.py:32-44 | the OPS text, or 'No Text' for an unlisted code |
| OpsLookup.DisplayLookup | dm_lab2fhir_inc/lib/mapper_lufu_procedure_lookup.py:47-59 | the display table is empty, so always 'No Code-Display Value' |
| OpsLookup.ProcedureTexts | dm_lab2fhir_inc/lib/mapper_lufu_procedure_lookup.py:23-29 | the fixed texts of the listed OPS codes |
| Common.ParseInt | dm_lab2fhir_inc/lib/mapper_dmenc2enc.py:39-56 | `int(s)` succeeds iff s is a non-empty digit string |
| Common.ParseIntOfNatToString | dm_lab2fhir_inc/lib/mapper_dmdiag2cond.py:49 | `int(str(n)) == n` |
| Common.SplitNoSeparator | dm_lab2fhir_inc/lib/mapper_dmpro2pro_med.py:86 | a text without the separator splits into itself |
| Common.SplitFirst | dm_lab2fhir_inc/lib/mapper_dmpro2pro_med.py:86 | the part before the first separator is the first part |
| Common.NatToString | dm_lab2fhir_inc/lib/mapper_dmdiag2cond.py:49 | `str(n)` is a non-empty digit string |
| Common.Slice | dm_lab2fhir_inc/lib/mapper_dmenc2enc.py:39-41 | Python slicing with clamped bounds: the length, and `s[i:j]` when the bounds are in range |
| Common.DropFirst | dm_lab2fhir_inc/lib/mapper_dmpro2pro_med.py:55-61 | one character shorter, "" for an empty text, and character i is character i + 1 of the input |
| Common.Split | dm_lab2fhir_inc/lib/mapper_dmpro2pro_med.py:86 | `split('-')` gives at least one part, none containing the separator |
| Common.RemoveCharsMembers | dm_lab2fhir_inc/lib/mapper_dmdiag2cond.py:75 | `re.sub` of a character class keeps exactly the characters outside the class |
| Common.RemoveCharsAppend | dm_lab2fhir_inc/lib/mapper_dmdiag2cond.py:75 | removal distributes over concatenation, so what stays keeps its order |
| Common.RemoveCharsOne | dm_lab2fhir_inc/lib/mapper_dmdiag2cond.py:75 | one character is dropped iff it is in the class, otherwise kept once |
| Common.RemoveCharsClean | dm_lab2fhir_inc/lib/mapper_dmdiag2cond.py:75 | a text with no character of the class is unchanged |
| Common.RemoveCharsBetween | dm_lab2fhir_inc/lib/mapper_dmdiag2cond.py:75 | a class character between two clean parts is cut out in place |
| Common.RemoveCharsIdempotent | dm_lab2fhir_inc/lib/mapper_dmdiag2cond.py:75 | removing twice equals removing once |
| Common.ToLower | dm_lab2fhir_inc/lib/mapper_dmpat2pat.py:30 | `lower()`, character by character |
| Fhir.ReferenceInjective | dm_lab2fhir_inc/lib/mapper_dmdiag2cond.py:101-104 | equal references of one type name the same id |
| Fhir.Sides | dm_lab2fhir_inc/lib/mapper_dmdiag2cond.py:110-126 | left iff 'L' or 'B', right iff 'R' or 'B', left before right |

## Left out

- The remote-endpoint branch of `execute` (`fhir_bundle.py:171-179`) and every HTTP call. Only the psql branch is modelled.
- Database connection handling, `pd.read_sql_query` chunking and the SQL join itself. Query results are input sequences; the join and its ORDER BY are not modelled.
- `DBConnectionUMM.get_pat_num_p21` and `get_case_num_p21` (`umm_db_lib.py:73-230`): they count in the source warehouse, which is not modelled.
- `process_lufu`: the mappers it uses are modelled, the pass is not.
- The SOAP pseudonymizer is a deterministic function of the text it is sent. The keys are passed as text exactly as each pass sends them.
- sha256 is an abstract deterministic function; collisions are not modelled.
- Resource validation (`as_json` raising `FHIRValidationError`) is a predicate per resource kind.
- The LOINC converter `_convert_loinc` is an optional oracle. Its HTTP errors are not modelled.
- Dates and times: parsing, `strftime`, time zones. Timestamps are integers, and absent ones (NaT) are `None`.
- Floating point: the ventilation and ICU day rounding and the comma-decimal dosage parsing. Values are kept as given.
- ProcedureMapper.DoseBound: `float(dosage.replace(',', '.'))` (`mapper_dmpro2pro_med.py:148,153`) raises ValueError for a cell that is neither "NaN" nor a number, and that ends the procedure pass. The model keeps the text with commas replaced and never fails.
- ConditionMapper.FullCode: a NULL `icd_code` with a truthy `sec_code` raises TypeError at `mapper_dmdiag2cond.py:62-64`. The model's ICD code is a string and cannot be NULL.
- SubEncounterMapper.LocationOf: a NULL unit name raises AttributeError at `loc_name.encode` (`mapper_dmdep2enc.py:104`). The model's unit name is a string and cannot be NULL.
- Coding versions: `Fhir.Coding` has no version field, so every version the mappers set is dropped. These are the ICD catalogue version (`code_ver`, `mapper_dmdiag2cond.py:68,74`) on the code and the main-cross extension, the OPS version (`ops_id`, `mapper_dmpro2pro_med.py:37,196`), the constant ATC and SNOMED versions (`mapper_dmpro2pro_med.py:76,208`) and the constant lung-function coding versions "0.1", "2.46" and "0.01" (`mapper_lufufall2obs.py:281,323,331`).
- Common.ToLower: lowers ASCII letters only. Python's `lower()` also lowers non-ASCII letters.
- NaN tests are modelled as the presence of an `Option` value.
- `int(...)` is modelled on plain digit strings. Signs and surrounding whitespace, which Python also accepts, always fail in the model.
- pandas table access (`loc`, `to_string`): lookup tables are finite maps, and duplicate table rows are not modelled.
- Logging, the `first_upsert`/`first_rm` flags and the `verbose` flag.
- The clocks: a pass's `current_ts` passed as `ts`, and the database's `NOW()` during one `execute` passed as `now`. Both are parameters, and the model does not relate them.
- The lung-function column renaming in `read` and the `noLoinc` filter and time window of the laboratory query.
- The concrete fixture counts of `int_test.py:39-43` and `sys_test_etl.py:94-95`: they depend on the test database contents, which are not part of this model.
- ProcedurePass.RunOf, EncounterPass.RunOf: each pass's per-row counters are added after the row's resources are collected instead of one at a time. The arithmetic is the same.
- EncounterPass.ProcessEncounters: the per-case diagnosis, department and transfer queries are functions of the context, not queries.

## Findings

| source | as written | input that shows it | evidently intended | confidence | as-written member | corrected member |
|---|---|---|---|---|---|---|
| dm_lab2fhir_inc/lib/umm_on_fhir.py:258-302 | a sub-encounter's locations join `location_list_total` before its validation; an invalid sub-encounter takes back its location counts but leaves its locations in the list; an invalid main encounter then subtracts the whole list length again | one department, one valid location, an invalid sub-encounter and an invalid main encounter: `valid_loc` becomes -1. With a valid main encounter, the location is added to the bundle while `valid_loc` stays 0 | locations of an invalid sub-encounter are neither collected nor counted, so `valid_loc` equals the number of locations handed to `add_resources` | not executed | EncounterPass.LocationCounterGoesNegative | EncounterPass.CorrectedLocationsCounted |

`EncounterPass.ProcessEncounters` keeps the bookkeeping as written. The function `EncounterPass.DepartmentStep` states it: locations are collected before the sub-encounter's check, and an invalid sub-encounter takes back only its counts. The corrected step is the function `EncounterPass.DepartmentStepCorrected`, where an invalid sub-encounter contributes neither locations nor counts.

Other behaviour the model records as written:
- A procedure cancellation whose OPS code starts with '6' cancels only the MedicationStatement. Its Procedure is not cancelled.
- The encounter and transfer passes cancel `<psn>_vent`, `<psn>_icu` and `<psn>_dia`. The mappers create `<psn>-vent`, `<psn>-dia` and `<psn>-icu`, so these cancellations never reach the stored observations (`EncounterPass.CancelMissesVentilation`, `TransferPass.CancelIdsNeverMapped`).
- `get_pat_num_fhir` and `get_case_num_fhir` select ventilation, dialysis and ICU observations by the source '#p21' (`DbStats.RefSelection`). The mappers write '#sap-ish', so those branches count none of the observations the passes store.
