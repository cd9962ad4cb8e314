# Transcript registry in Dafny

This project models `TranscriptDB`, the in-memory registry of students and their course grades in
`src/transcript.service.ts`. The registry keeps two fields: an ordered list of transcripts
(`_transcripts`) and the last ID it handed out (`_lastID`). Each transcript holds a student, meaning
an ID and a name, and the list of course grades recorded for that student.

- `types.dfy` (module `Types`): the records of `src/types.ts`. `StudentID` is an `int`, and a grade
  is a `real` that is only stored and handed back.
- `results.dfy` (module `Results`): `Option`, and a `Result` that carries either a value or one of
  the two errors the registry throws: `NotFound(id)` or `GradeNotFound(id, course)`. `:-` passes an
  error on to the caller, the way the source lets an exception propagate.
- `transcript_spec.dfy` (module `TranscriptSpec`): the queries as functions over the transcript list.
  - `StudentIDs` is `map`.
  - `IndexOf` is `findIndex` by ID and `Lookup` is `getTranscript`.
  - `FindGrade` is `find` by course and `GradeOf` is `getGrade`.
  - `WithName` and `IDsNamed` are `filter` and then `map`.
  - The module also proves the lemmas about these functions.
- `transcript_service.dfy` (module `TranscriptService`): class `TranscriptDB`. Its fields
  `transcripts` and `lastID` are the source's two fields. It also has a ghost set `Issued` that holds
  every ID handed out so far. `Valid()` is the class invariant:
  - the IDs handed out are exactly `1 .. lastID`;
  - every stored ID is one of them;
  - no two stored transcripts share an ID.

  The three mutators state their complete new state and keep `Valid()`. The searches
  (`_getIndexForId`, the `find` inside `getGrade`) and the two queries are loops, each proved equal to
  its specification function.
- `scenarios.dfy` (module `TranscriptScenarios`): client methods that follow the cases of the two
  Vitest files. Each assertion in them is proved from the class contracts and the lemmas of
  `TranscriptSpec`.

Adding a grade never replaces an earlier one. A second `addGrade` for the same course appends a
second entry, and `getGrade` keeps returning the first (`EarlierGradeWins`).

## Model

| member | source | states |
|---|---|---|
| `TranscriptSpec.StudentIDs` | src/transcript.service.ts:136-138 | the `map` of `getAllStudentIDs`: the ID of each transcript in list order, exactly one per transcript |
| `TranscriptSpec.IDsNamed` | src/transcript.service.ts:52-56 | the whole `nameToIDs` result, `filter` by exact name and then `map` to the ID: no longer than the list, and every ID in it is a stored ID |
| `TranscriptSpec.WithGrade` | src/transcript.service.ts:108 | the nested `push` of `addGrade`: same length and ID list, the student at that index is kept and its grades are the old grades, kept in order, followed by `{course, grade}`, and every other transcript is unchanged |
| `TranscriptSpec.IndexOf` | src/transcript.service.ts:67-73 | the search by ID returns the least index holding the ID; when nothing is found, no transcript holds it |
| `TranscriptSpec.Lookup` | src/transcript.service.ts:82-85 | succeeds exactly when the ID is among the stored IDs, and then returns a stored transcript with that ID; otherwise the error is `NotFound(id)` |
| `TranscriptSpec.FindGrade` | src/transcript.service.ts:121 | finds nothing exactly when no entry has that exact course; otherwise returns the first entry with that course |
| `TranscriptSpec.GradeOf` | src/transcript.service.ts:118-129 | `NotFound` exactly when the ID is not stored; `GradeNotFound` exactly when the student is stored but has no entry for the course, an empty list included; a returned entry has that course, belongs to that student, and is the first entry for that course on the transcript |
| `TranscriptSpec.WithName` | src/transcript.service.ts:54 | the filter keeps only stored transcripts whose name is exactly the one asked for |
| `TranscriptSpec.IndexOfConcat` | src/transcript.service.ts:68 | a search over a concatenated list finds the hit in the first part if there is one, and otherwise the hit in the second part, shifted |
| `TranscriptSpec.IndexOfUpdate` | src/transcript.service.ts:108 | replacing a transcript by one with the same student changes no search by ID |
| `TranscriptSpec.LookupUnique` | src/transcript.service.ts:82-85 | with unique IDs, every stored transcript is exactly the one its ID resolves to |
| `TranscriptSpec.LookupAfterAppend` | src/transcript.service.ts:39-45 | appending a transcript under a fresh ID makes that ID resolve to it, and every other ID resolves as before |
| `TranscriptSpec.StudentIDsConcat` | src/transcript.service.ts:137 | the ID list of a concatenation is the concatenation of the ID lists |
| `TranscriptSpec.StudentIDsSplit` | src/transcript.service.ts:137 | the ID list splits around any index into the IDs before it, that entry's ID, and the IDs after it |
| `TranscriptSpec.WithoutMembers` | src/transcript.service.ts:93-96 | the ID list with an ID taken out holds exactly the other members of the original |
| `TranscriptSpec.WithoutAbsent` | src/transcript.service.ts:93-96 | taking out an ID that does not occur changes nothing |
| `TranscriptSpec.WithoutMiddle` | src/transcript.service.ts:93-96 | taking out an ID that occurs only between two parts leaves the two parts joined in order |
| `TranscriptSpec.IDOnlyAt` | src/transcript.service.ts:93-96 | with unique IDs, the ID at an index occurs nowhere before or after it |
| `TranscriptSpec.DeleteIDs` | src/transcript.service.ts:93-96 | splicing out the entry an ID resolves to removes exactly that ID from the ID list and keeps the others in order |
| `TranscriptSpec.DeleteLookups` | src/transcript.service.ts:93-96 | after the splice, the deleted ID no longer resolves and every other ID resolves to the same transcript as before |
| `TranscriptSpec.LookupSkip` | src/transcript.service.ts:95 | the removed entry plays no part in the search for any other ID |
| `TranscriptSpec.DeleteKeepsUnique` | src/transcript.service.ts:95 | removing one entry keeps the stored IDs pairwise distinct |
| `TranscriptSpec.FindGradeConcat` | src/transcript.service.ts:121 | a search by course over a concatenation returns the first hit in the first part, and otherwise the first hit in the second |
| `TranscriptSpec.WithGradeKeepsOthers` | src/transcript.service.ts:106-109 | appending a grade keeps the number of transcripts, the ID list, ID uniqueness and every other student's transcript; the student's own transcript keeps its student and gains the entry at the end |
| `TranscriptSpec.GradeRoundTrip` | src/transcript.service.ts:106-129 | if the student has no entry for the course, then after the grade is added, looking up that course returns exactly `{course, grade}` |
| `TranscriptSpec.EarlierGradeWins` | src/transcript.service.ts:108-121 | if the student already has an entry for the course, adding another changes no grade lookup: the first entry keeps being returned |
| `TranscriptSpec.OtherGradesUnaffected` | src/transcript.service.ts:106-129 | adding a grade leaves every lookup for another course or another student unchanged, so different courses resolve independently |
| `TranscriptSpec.IDsNamedConcat` | src/transcript.service.ts:52-56 | filtering and then mapping a concatenation gives the concatenation of the results |
| `TranscriptSpec.IDsNamedMembers` | src/transcript.service.ts:52-56 | an ID is reported for a name exactly when some transcript holds that ID under exactly that name |
| `TranscriptSpec.IDsNamedNone` | src/transcript.service.ts:52-56 | when no transcript carries the name, the result is empty |
| `TranscriptSpec.IDsNamedExcludesOthers` | src/transcript.service.ts:52-56 | with unique IDs, the result never contains the ID of a student who has another name |
| `TranscriptSpec.IDsNamedInOrder` | src/transcript.service.ts:52-56 | the result is a subsequence of the ID list: it keeps the order in which students were added |
| `TranscriptSpec.IDsNamedAfterAppend` | src/transcript.service.ts:39-56 | after a transcript is appended, the result for a name gains that ID at the end exactly when the name matches |
| `TranscriptService.TranscriptDB.constructor` | src/transcript.service.ts:23-32 | a new registry is empty, its last ID is 0, and it rejects every ID with `NotFound` |
| `TranscriptService.TranscriptDB.AddStudent` | src/transcript.service.ts:39-45 | returns the old last ID + 1, which becomes the last ID; the ID was never handed out before and is not stored; exactly one transcript with that ID, the name and no grades is appended; the new ID resolves to it and every other ID resolves as before; the invariant is kept |
| `TranscriptService.TranscriptDB.NameToIDs` | src/transcript.service.ts:52-56 | returns `filter` by exact name and then `map` to the ID, over the stored list |
| `TranscriptService.TranscriptDB.GetIndexForId` | src/transcript.service.ts:67-73 | returns the least index holding the ID, or `NotFound(id)` when none holds it; the state is unchanged |
| `TranscriptService.TranscriptDB.GetTranscript` | src/transcript.service.ts:82-85 | returns the transcript stored under the ID, or `NotFound(id)` |
| `TranscriptService.TranscriptDB.DeleteStudent` | src/transcript.service.ts:93-96 | on an absent ID: `NotFound` and nothing changes; otherwise exactly that entry is spliced out and the others keep their order. Afterwards the ID list is the old one without the ID, the ID no longer resolves, other IDs resolve as before, the last ID and the issued IDs are unchanged, and the invariant is kept |
| `TranscriptService.TranscriptDB.AddGrade` | src/transcript.service.ts:106-109 | on an absent ID: `NotFound` and nothing changes; otherwise `{course, grade}` is pushed onto that student's grades, with no check for an earlier entry for that course. The number of transcripts, the ID list, the student and every other transcript are unchanged, and the invariant is kept |
| `TranscriptService.TranscriptDB.GetGrade` | src/transcript.service.ts:118-129 | returns what `GradeOf` describes: the first entry for exactly that course, or `NotFound`, or `GradeNotFound` |
| `TranscriptService.TranscriptDB.GetAllStudentIDs` | src/transcript.service.ts:136-138 | returns the stored IDs in list order, one per transcript |

## Left out

- Error message text (src/transcript.service.ts:70, 124-126): a thrown `Error` becomes a `NotFound` or `GradeNotFound` result, and the wording is not modelled.
- `TranscriptDB.GetTranscript`: returns the transcript as a value. In the source it is a live reference into `_transcripts` that a caller could mutate, and that aliasing is not modelled.
- `TranscriptDB.GetGrade`: returns the grade entry as a value. In the source it is the object stored in the student's `grades` array, found by `find` at src/transcript.service.ts:121 and returned at :128. A caller that assigns to its `grade` would change what every later `getGrade` returns, and that aliasing is not modelled.
- JavaScript `number`: IDs are unbounded integers, so precision loss above 2^53 is not modelled. Grades are `real` values that are stored and returned but never computed on, so NaN and infinities are not modelled.
- In-place mutation of the array: `push` and `splice` on `_transcripts`, and `push` on a nested `grades` array, are modelled by assigning a new sequence to the `transcripts` field. The identity of the array objects is not modelled.
- The `TranscriptService` interface (src/transcript.service.ts:9-17) only declares the method signatures that the class implements. It has no separate model.
- The `!course` test at src/transcript.service.ts:123 only ever sees a grade object or `undefined`, and a grade object is always truthy. So the model treats it as "no entry found".
- Replacing an existing grade for the same course is not modelled, because the code does not do it.
- The Vitest files and vitest.config.ts are not modelled as code. `TranscriptScenarios` follows their test cases as verified client code.
