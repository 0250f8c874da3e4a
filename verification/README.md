# A verified model of idempotent enrolment and submission

The learning platform lets a client repeat `POST /api/v1/enrollments` and
`POST /api/v1/assignments/:id/submissions` under an `Idempotency-Key`. Three mechanisms have to fit together:

* the idempotency protocol, a lookup, an insert guarded by a unique constraint, a second lookup, the run of the
  body, a save or a delete, and a polling loop for those who came second;
* the hash that decides whether a repeated request asks for the same thing: the SHA-256 of the JSON text of the
  payload with its keys sorted;
* the bodies themselves, multi-step check-then-act code over PostgreSQL and MongoDB, made safe by two unique keys.

The protocol alone does not make answers agree. If a key has a completed record, the time of a request's first lookup
decides: before the expiry the request is answered with the stored identifier, from then on by a run of its own
(`IdempotencyExpiry.CompletedKeyIff`). If an owner fails, a request that its row had blocked runs unprotected beside the
next owner (`IdempotencyWitnesses.FailedOwnerRunsAgain`). Together with the unique keys of the bodies every success agrees
(`EndToEndResults.SuccessesAgree`), and a successful submission answer always points to a document with the content
that this very request carried (`EndToEndResults.AnswerHoldsOwnWork`). A client that repeats an answered operation under
the same key before it expires gets the same identifier without a second run (`EndToEndKeys.RetryIsReplayed`).

## How it is modelled

Every database call is one atomic step of one request. A request has a program counter that names the call it waits
for, and a schedule is any list of steps: of any number of requests, of failing calls, of crashes, of the clock.
`Next` is one step and `Run` a whole schedule. A step carries the answer of the database (`found`) and the identifier
that it would generate (`newId`); a guard says which answers are legal. An answer that is not legal changes nothing. A
lookup compares with a time (`asOf`) that is read after the previous call returned and before the answer.

| file | contents |
|---|---|
| `Texts`, `JsonPrinter`, `JsonReader` | strings as UTF-16 code units; the printer of `JSON.stringify` (ECMA-262 section 25.5.2), and a reader of JSON text written from the grammar (RFC 8259 sections 4 to 7) that gives every printed value back |
| `Canonical` | payload values, own-key order of JavaScript objects, `canonicalize` and `stableStringify` |
| `IdempotencyKeys` | `normalizeKey` |
| `Idempotency`, `IdempotencyResults`, `IdempotencyTermination` | the protocol, its invariant and what follows over whole runs |
| `IdempotencyExpiry`, `IdempotencyWitnesses` | exactly when a key protects and when `run` starts again, with schedules that show it |
| `IdempotencyService` | the protocol as an object whose methods change the table in place |
| `IdempotencyWaiting` | exactly when a request that waits for another one's row is answered |
| `Entities`, `Learning`, `LearningResults`, `LearningReviews`, `LearningTermination` | courses, assignments, enrolments, submissions and feedback, likewise |
| `LearningAlone` | what each body means when nothing comes between its calls |
| `LearningService` | the learning machine as an object |
| `EndToEnd`, `EndToEndResults` | both machines composed: the bodies of the protocol are the jobs of the learning machine |
| `EndToEndKeys` | where the key of a request takes it, and the replay of completed keys in the whole |
| `EndToEndProgress`, `EndToEndReplays`, `EndToEndRace` | a bound on all steps of one request, when a replay can fail, and the race of first enrolments |
| `Admin`, `AdminService` | user status and role, moderation, admin login and the audit log, one whole request after another |
| `Paging` | page arithmetic of the lists |

Each class is proved to do exactly what the machine does: `View()` is the state of the machine, `Step` performs `Next`,
and `Drive` performs `Run` with a loop. `Valid()` is the invariant of the machine.

Some facts a reader may not expect:

* The repository's README.md promises (line 22) that retries and double clicks are idempotent. Of the rows and the
  answers this holds in every interleaving; of `run` itself it holds exactly as long as, once it has started, no insert
  of the scope finds no row and no second lookup finds its blocking row expired or gone
  (`IdempotencyExpiry.AtMostOneRunIff`), and so in particular while no owner fails and no record expires
  (`IdempotencyResults.AtMostOneRun`).
* `canonicalize` fills a fresh object by assignment, so a property named `__proto__` sets the prototype and disappears
  from the text. Two payloads have the same text exactly when they are the same JSON value up to key order once such
  properties are ignored (`Canonical.SameTextIffSameMeaning`); without them it is the plain law
  (`Canonical.TextIsJsonValue`); `Canonical.ProtoIsInvisible` is the input on which the plain law fails. This concerns
  `canonicalize` alone: the two callers pass validated DTOs, and src/main.ts:19-25 lets no other property through, so
  neither can be sent such a payload.
* Names that are array indices are listed before all others and in numeric order, whatever `sort` did. The law covers
  them as well.
* The validator of feedback lets `score: null` through. Such feedback makes a submission REVIEWED without a score, and
  nothing else does (`LearningReviews.ReviewedIffScored`); such a submission is reachable
  (`LearningReviews.NullScoreIsReachable`).
* Nothing in the repository writes DROPPED. It is a step of the environment; a submission made before keeps its
  enrolment row, but the row is then no longer ACTIVE or COMPLETED.
* The row that a list of locked progress updates leaves does not depend on their order. Which of them are refused does,
  except when none or all of them ask for 100 (`Entities.RejectionIgnoresOrderIff`).

## Model

| member | source | states |
|---|---|---|
| JsonReader.PrintUnique | src/common/idempotency/idempotency.service.ts:203-205 | JSON text is prefix-free: two texts that start alike at an end of value are of one value, and the rest agrees |
| JsonReader.QuoteReads | src/common/idempotency/idempotency.service.ts:203-205 | a quoted string, whatever follows it, is read back by the grammar of RFC 8259 section 7 with its own table of escapes: two-character escapes, `\u` with four hexadecimal digits, surrogate pairs as they are and no surrogate alone |
| JsonReader.NumberReads | src/common/idempotency/idempotency.service.ts:203-205 | a printed integer is read back as decimal digits without a leading zero, a minus before them if it is negative |
| JsonReader.PrintReads | src/common/idempotency/idempotency.service.ts:203-205 | every printed value is read back by the grammar of RFC 8259 without white space: the printed text is the text of this value and of no other |
| JsonReader.EscapesAre | src/common/idempotency/idempotency.service.ts:203-205 | exactly the seven characters with a letter are escaped by it, other control characters and surrogates alone by four lower-case digits, and nothing else is escaped |
| Canonical.IndexIsPrintedNumber | src/common/idempotency/idempotency.service.ts:229-231 | a name is an array index if and only if it is what some number below 2^32 - 1 prints as |
| Canonical.OwnKeyOrder | src/common/idempotency/idempotency.service.ts:227-231 | own-key order: indices first and by number, then other names by the first unit in which they differ |
| Canonical.IndexOrderIsNumeric | src/common/idempotency/idempotency.service.ts:229-231 | among array-index names, own-key order is numeric order |
| Canonical.CanonSorted | src/common/idempotency/idempotency.service.ts:221-236 | what is printed has its keys in own-key order, without duplicates, at every depth |
| Canonical.CanonIdempotent | src/common/idempotency/idempotency.service.ts:221-236 | canonicalising twice is canonicalising once |
| Canonical.CanonMeaning | src/common/idempotency/idempotency.service.ts:221-236 | canonicalising keeps the JSON value, but for properties named `__proto__` |
| Canonical.SameTextIffSameMeaning | src/common/idempotency/idempotency.service.ts:203-236 | two payloads have one text if and only if they are one JSON value up to key order, with undefined fields absent and `__proto__` ignored |
| Canonical.TextReadsAsMeaning | src/common/idempotency/idempotency.service.ts:203-236 | the hashed text, read as JSON, is the JSON value of the payload, `__proto__` ignored, with keys in own-key order at every depth |
| Canonical.TextIsJsonValue | src/common/idempotency/idempotency.service.ts:203-236 | for payloads without `__proto__`: one text if and only if one JSON value |
| Canonical.ProtoIsInvisible | src/common/idempotency/idempotency.service.ts:228-232 | the input on which that fails |
| Canonical.Canonicalize | src/common/idempotency/idempotency.service.ts:221-236 | the recursive method computes the canonical form |
| Canonical.CanonicalizeItems | src/common/idempotency/idempotency.service.ts:222-224 | the array loop computes the canonical form |
| Canonical.CanonicalizeFields | src/common/idempotency/idempotency.service.ts:226-233 | the loop over sorted keys that assigns property by property computes the canonical form |
| IdempotencyKeys.KeyIsPaddedText | src/common/idempotency/idempotency.service.ts:172-187 | a header is a key if and only if it is that key with white space around it, the key being trimmed, non-empty and at most 255 long |
| IdempotencyKeys.NoKeyOrTooLong | src/common/idempotency/idempotency.service.ts:172-187 | there is no key if and only if there is no header or only white space, and a header is refused if and only if more than 255 units stand between its white space |
| IdempotencyKeys.SpaceIs | src/common/idempotency/idempotency.service.ts:177 | white space is what `trim` removes, listed by code unit |
| Idempotency.ReadIdIff | src/enrollments/enrollments.service.ts:235-244 | an identifier is read from a body if and only if the body is an object with a string under that name |
| Idempotency.ReadBack | src/common/idempotency/idempotency.service.ts:74-80 | a stored identifier is read back under its own field name and under no other |
| Idempotency.NormalizedBody | src/common/idempotency/idempotency.service.ts:207-219 | no body for `undefined` and null, objects and arrays as they are, anything else under `value`, where it is read back |
| Idempotency.NextKeepsInv | src/common/idempotency/idempotency.service.ts:40-128 | every step keeps: one row per scope, PROCESSING rows have their owner, COMPLETED rows hold the owner's answer, no request runs twice, answers match their record |
| Idempotency.RunKeepsInv | src/common/idempotency/idempotency.service.ts:40-128 | so does every schedule |
| IdempotencyResults.Frame | src/common/idempotency/idempotency.service.ts:59-70 | a step moves one request; a known request starts its run only by a successful insert or an empty second lookup |
| IdempotencyResults.OnlyOwnerChangesRow | src/common/idempotency/idempotency.service.ts:72-86 | a row changes or goes only while PROCESSING and only by a step of its creator |
| IdempotencyResults.CompletedStays | src/common/idempotency/idempotency.service.ts:78-82 | a COMPLETED record is never changed or removed |
| IdempotencyResults.StoredRecord | src/common/idempotency/idempotency.service.ts:72-82 | a stored row has no response while PROCESSING, and 201 with the owner's identifier once COMPLETED; it never has more than a day to live |
| IdempotencyResults.OneCompletedRecordEver | src/common/idempotency/entities/idempotency-key.entity.ts:20 | a scope has at most one COMPLETED record over a whole interleaving |
| IdempotencyResults.AnswerIsOwnersResult | src/common/idempotency/idempotency.service.ts:72-109 | an answer through a record is what the run that completed the record returned, in the same scope and under an equal hash |
| IdempotencyResults.AnswersAgree | src/common/idempotency/idempotency.service.ts:40-109 | all owners' and replayed answers of a scope carry one identifier |
| IdempotencyResults.SameHashIffSameMeaning | src/common/idempotency/idempotency.service.ts:189-205 | hashes are equal if and only if the JSON values are |
| IdempotencyResults.AnsweredUnderSamePayload | src/common/idempotency/idempotency.service.ts:89-109 | who is answered through a record sent the JSON value of the run that completed it |
| IdempotencyResults.RefusedIffOtherPayload | src/common/idempotency/idempotency.service.ts:54-57 | a lookup that finds a record refuses the request if and only if its JSON value differs from the creator's |
| IdempotencyResults.OneOwner | src/common/idempotency/idempotency.service.ts:59-87 | a PROCESSING record has exactly one owner in flight unless its creator crashed or could not delete it |
| IdempotencyResults.QuietMeansCompleted | src/common/idempotency/idempotency.service.ts:72-87 | without crashes and failed clean-ups, all records are COMPLETED when no request is in flight |
| IdempotencyResults.AtMostOneRun | src/common/idempotency/idempotency.service.ts:54-70 | if no owner of a scope fails and no record of it expires, `run` starts at most once for the scope |
| IdempotencyExpiry.FallbackIff | src/common/idempotency/idempotency.service.ts:64-70 | a second lookup runs unprotected if and only if the blocking row has expired by then or, that row being gone, no row of the scope is active; a row that is gone was deleted by its failed owner |
| IdempotencyExpiry.StartIff | src/common/idempotency/idempotency.service.ts:54-73 | a step starts a run in a scope exactly when an insert finds no row or a second lookup finds its blocking row not active |
| IdempotencyExpiry.RunsTwiceIff | src/common/idempotency/idempotency.service.ts:54-73 | along any schedule, `run` starts again for a scope if and only if one of those two guards holds after it had started |
| IdempotencyExpiry.AtMostOneRunIff | src/common/idempotency/idempotency.service.ts:54-73 | the same over all schedules from the empty table |
| IdempotencyExpiry.CompletedKeyIff | src/common/idempotency/idempotency.service.ts:54-109 | with a completed record of equal payload, an answered request got the stored identifier and did not run if and only if its first lookup was before the expiry, and was answered by its own unprotected run otherwise |
| IdempotencyExpiry.ExpiredKeyRunsUnprotected | src/common/idempotency/idempotency.service.ts:64-70 | once the completed record has expired, under every schedule every new request of the scope that is answered is answered by an unprotected run |
| IdempotencyExpiry.LiveKeyReplays | src/common/idempotency/idempotency.service.ts:54-109 | a new request of equal payload that looks before the expiry never runs: it gets the stored identifier, or its lookup failed, it crashed, or the row was not found |
| IdempotencyWitnesses.ExpiredKeyRunsAgain | src/common/idempotency/idempotency.service.ts:64-70 | a schedule in which an expired key is answered with two different identifiers |
| IdempotencyWitnesses.FailedOwnerRunsAgain | src/common/idempotency/idempotency.service.ts:83-86 | a schedule in which, the first owner having failed, one key is answered with two different identifiers |
| IdempotencyTermination.StepProgress | src/common/idempotency/idempotency.service.ts:40-128 | every move of a request brings it nearer to its end, no other request's step moves it |
| IdempotencyTermination.MovesBounded | src/common/idempotency/idempotency.service.ts:40-128 | under any schedule a request moves at most as often as its counter allows, 24 times from the start |
| IdempotencyTermination.NeverStuck | src/common/idempotency/idempotency.service.ts:40-128 | a request in flight always has a step without failure that brings it nearer to its end |
| IdempotencyTermination.WaitForCompletion | src/common/idempotency/idempotency.service.ts:111-128 | the polling loop returns a record if and only if some of its 20 polls finds the row COMPLETED while every earlier one found it PROCESSING, it is the row of that poll, and the wait is 100 ms for each poll made; it also stops where the row is gone, and else waits 2000 ms; it does what the machine's polls do |
| IdempotencyService.AnswerIsFinal | src/common/idempotency/idempotency.service.ts:40-87 | an answer once given is never taken back |
| IdempotencyService.Service.Execute | src/common/idempotency/idempotency.service.ts:40-54 | the synchronous start: the body runs at once exactly when the header is absent or white space, the request is refused exactly when the key is too long, else it looks up its scope; no other request moves |
| IdempotencyService.Service.FindActiveRecord | src/common/idempotency/idempotency.service.ts:54-70 | the answer of either lookup, for each row or none: mismatch for another hash, replay of a COMPLETED row, 20 polls for a PROCESSING one; without an active row of the scope an insert after the first and an unprotected run after the second lookup; no other request moves |
| IdempotencyService.Service.CreateProcessingRecord | src/common/idempotency/idempotency.service.ts:130-153 | exactly when the scope has no row, the insert adds a PROCESSING one that lives a day and the run starts; else the request goes on to its second lookup; all other rows stay |
| IdempotencyService.Service.SaveCompleted | src/common/idempotency/idempotency.service.ts:73-82 | the owner's save completes its own PROCESSING row, whose body then reads back the identifier that the owner is answered with; all other rows stay |
| IdempotencyService.Service.DeleteProcessing | src/common/idempotency/idempotency.service.ts:83-86 | the owner's delete removes its own PROCESSING row and no other, and the owner fails |
| IdempotencyService.Service.PollOnce | src/common/idempotency/idempotency.service.ts:112-127 | one poll: a row that is gone gives IN_PROGRESS, a COMPLETED one the replay of its body, a PROCESSING one a poll less or IN_PROGRESS at the last one; the second hash check never fails |
| IdempotencyService.Service.FailQuery | src/common/idempotency/idempotency.service.ts:72-87 | a failing save sends the owner to its delete, a failing delete leaves its row behind, any other failing call fails the request; no other request moves |
| IdempotencyService.Service.EndRun | src/common/idempotency/idempotency.service.ts:69-86 | an owner goes on to its save with the identifier or to its delete, a run without a record is answered with what it resolved to or fails; no other request moves |
| IdempotencyService.Service.EndReplay | src/common/idempotency/idempotency.service.ts:96-108 | a replay is answered with the identifier of the completed record of its own scope and hash exactly when the row was found; no other request moves |
| IdempotencyService.Service.Step | src/common/idempotency/idempotency.service.ts:40-128 | any step updates the fields as the machine does and keeps the invariant |
| IdempotencyService.Service.Drive | src/common/idempotency/idempotency.service.ts:40-128 | so does any schedule, and no answer changes |
| IdempotencyWaiting.WaiterAnsweredIff | src/common/idempotency/idempotency.service.ts:89-128 | under any schedule in which its own calls do not fail, a request that waits for a row is answered if and only if one of its remaining polls finds the row COMPLETED, those before it having found the row, and its replay finds what the row names; it is then answered with the identifier its owner was answered with, and else told that the request is in progress or that there is nothing to replay |
| Entities.ProgressIsMaximum | src/enrollments/enrollments.service.ts:107-119 | a list of locked updates leaves the maximum of the start value and all requests, COMPLETED if and only if that is 100 |
| Entities.ProgressConfluence | src/enrollments/enrollments.service.ts:88-121 | permuted updates leave the same row |
| Entities.RejectedAfterHundred | src/enrollments/enrollments.service.ts:107-117 | an ACTIVE row refuses exactly the requests after the first one for 100 |
| Entities.RejectionIgnoresOrderIff | src/enrollments/enrollments.service.ts:107-117 | all orders of the same requests refuse the same ones if and only if none of them asks for 100 or all do |
| Learning.ReactivatedKeepsInv | src/enrollments/enrollments.service.ts:189-191 | a reactivation write, however stale, lands on the row of its own pair and keeps the invariant |
| Learning.EnrollmentInsertKeepsInv | src/enrollments/enrollments.service.ts:194-216 | an insert that passes the unique key is the first enrolment of its pair |
| Learning.SubmissionInsertKeepsInv | src/submissions/submissions.service.ts:211-231 | an insert that passes the unique index is the first submission of its pair, by a student who was enrolled |
| Learning.FeedbackKeepsInv | src/submissions/submissions.service.ts:257-286 | the conditional feedback update keeps the invariant |
| Learning.RemoveCourseKeepsInv | src/enrollments/entities/enrollment.entity.ts:28-30 | so does removing a course with its cascade, while jobs are in flight |
| Learning.NextKeepsInv | src/submissions/submissions.service.ts:74-88 | every step keeps: one row per pair, progress in range for its status, no tutor enrolled in an own course, every submitter enrolled, review fields consistent |
| Learning.RunKeepsInv | src/submissions/submissions.service.ts:74-88 | so does every schedule |
| LearningResults.EnrollmentRows | src/enrollments/enrollments.service.ts:107-119 | in every interleaving a student has one row in a course; ACTIVE means below 100, COMPLETED means 100, and the student is not the tutor |
| LearningResults.EnrolmentsAgree | src/enrollments/enrollments.service.ts:51-68 | all enrolments of a pair that ever succeed, by creation or reactivation, return one row |
| LearningResults.OneCreates | src/enrollments/entities/enrollment.entity.ts:16 | of all enrolments, or all submissions, of a pair at most one creates |
| LearningResults.OneSubmission | src/submissions/schemas/submission.schema.ts:54 | a student has at most one document for an assignment and at most one `submitOnce` succeeds |
| LearningResults.SubmittersAreEnrolled | src/submissions/submissions.service.ts:74-88 | a submission whose assignment exists is of a student with a row in that course who is not its tutor; without DROPPED writes the row is ACTIVE or COMPLETED |
| LearningResults.FirstTimeRace | src/enrollments/enrollments.service.ts:154-216 | of any number of concurrent first enrolments that ended, exactly one created the row and all others got ALREADY_ENROLLED |
| LearningResults.LockedUpdatesAdvance | src/enrollments/enrollments.service.ts:88-121 | transactions on a row, one after another, are the list of locked updates of `Entities.AdvanceAll` |
| LearningResults.ReviewedIsFinal | src/submissions/submissions.service.ts:273-285 | documents are never deleted, keep student, assignment and content, and once REVIEWED keep status, score, feedback and time |
| LearningResults.OneScoredFeedback | src/submissions/submissions.service.ts:107-136 | at most one feedback with a score is accepted for a document, and its score is the one stored |
| LearningResults.ReviewStates | src/submissions/submissions.service.ts:257-271 | SUBMITTED if and only if there is no feedback, if and only if there is no review time; RETURNED has no score |
| LearningReviews.ReviewedIffScored | src/submissions/submissions.service.ts:257-286 | in every reachable state a document is REVIEWED if and only if feedback with a score argument was accepted for it; its score is that argument, so it has none exactly when null was sent |
| LearningReviews.NullScoreIsReachable | src/submissions/submissions.service.ts:265-267 | a schedule that leads to a REVIEWED document without a score |
| LearningResults.ModerationCommutesWithFeedback | src/admin/admin-content.service.ts:209-221 | the order of a moderation write and a feedback write does not matter to the database |
| LearningTermination.BodiesEnd | src/submissions/submissions.service.ts:74-88 | a body ends after at most four answered calls |
| LearningTermination.CallAnswers | src/submissions/submissions.service.ts:74-88 | a body that has not ended always has a legal answer to wait for |
| LearningAlone.EnrollAlone | src/enrollments/enrollments.service.ts:51-68 | without interference: course missing, own course, row active, row dropped and reset, or a new row, and no other enrolment row changes |
| LearningAlone.SubmitAlone | src/submissions/submissions.service.ts:74-88 | without interference: the five refusals in order, exactly when they apply, or a new document of the student for the assignment with the content handed in, SUBMITTED, without feedback, score or review time, and not hidden |
| LearningAlone.FeedbackAlone | src/submissions/submissions.service.ts:107-136 | without interference: the five refusals in order, or feedback, time, status and score are written |
| LearningService.Service.FindPublishedCourse | src/enrollments/enrollments.service.ts:134-152 | the course is refused exactly when it is missing or unpublished, then exactly when it is the student's own; the enrolment goes on exactly when the course is open to the student; no other job moves |
| LearningService.Service.AssertNoEnrollment | src/enrollments/enrollments.service.ts:154-170 | the enrolment is refused exactly when the pair has an ACTIVE or COMPLETED row, and goes on otherwise |
| LearningService.Service.FindDroppedEnrollment | src/enrollments/enrollments.service.ts:172-190 | a save follows exactly when the pair has a DROPPED row, of that row made ACTIVE with progress 0, else an insert |
| LearningService.Service.SaveReactivatedRow | src/enrollments/enrollments.service.ts:189-191 | the row of the pair becomes ACTIVE with progress 0, however stale the read was, and the enrolment ends with it exactly when it is still there; no other row changes |
| LearningService.Service.CreateEnrollmentSafely | src/enrollments/enrollments.service.ts:194-216 | the insert is refused exactly when the pair has a row, fails exactly when the course is gone besides, and else adds the only row of the pair, ACTIVE with progress 0; no other row changes |
| LearningService.Service.SetProgress | src/enrollments/enrollments.service.ts:88-121 | progress becomes the larger of the two, the row is COMPLETED exactly when 100 was asked for, the two errors arise exactly for a missing row and a row that is not ACTIVE, and no other row changes |
| LearningService.Service.FindAssignment | src/submissions/submissions.service.ts:80-84 | the three refusals exactly when the assignment is missing, unpublished or past its due date; the submission goes on exactly otherwise, with the course of the assignment |
| LearningService.Service.CreateSubmissionSafely | src/submissions/submissions.service.ts:211-231 | the insert is refused exactly when the pair has a document, and else adds the only one: SUBMITTED, with the work handed in, without review and not hidden; no other document changes |
| LearningService.Service.FindSubmission | src/submissions/submissions.service.ts:233-255 | the two refusals exactly when the document is missing or of another assignment; feedback goes on exactly otherwise |
| LearningService.Service.UpdateFeedbackAtomically | src/submissions/submissions.service.ts:257-286 | exactly a document of the assignment that is not REVIEWED gets the feedback, the time, and REVIEWED with the score or RETURNED without one; every other document, every REVIEWED one and the origin of all stay |
| LearningService.Service.FindReplayed | src/enrollments/enrollments.service.ts:218-233 | a replay ends with an identifier exactly when that is the stored one and its row exists, and fails otherwise |
| LearningService.Service.HideSubmission | src/admin/admin-content.service.ts:209-221 | the flag is set, reason and time are set when hiding and cleared when showing, and nothing else of any document changes |
| LearningService.Service.RemoveCourseCascade | src/enrollments/entities/enrollment.entity.ts:28-30 | exactly the enrolments and assignments of the course go with it, the others stay as they are |
| LearningService.Service.Step | src/enrollments/enrollments.service.ts:51-121 | any step updates the tables as the machine does and keeps the invariant |
| LearningService.Service.Drive | src/submissions/submissions.service.ts:55-136 | so does any schedule; documents keep their origin and finished reviews stay |
| EndToEnd.NextKeepsInv | src/enrollments/enrollments.service.ts:33-49 | every step of the whole keeps the link: a run of the protocol is one job, a result is what that job ended with, a replay answers with the row it found |
| EndToEnd.RunKeepsInv | src/submissions/submissions.service.ts:55-72 | so does every schedule |
| EndToEndKeys.ArrivalLeads | src/enrollments/enrollments.service.ts:38-48 | a new request runs at once if and only if its key is absent or blank, is refused if and only if the key is too long, and else stands at its first lookup in the scope of its student, POST, its path and the trimmed key, with the hash of its payload; nothing else changes |
| EndToEndKeys.BodyOf | src/submissions/submissions.service.ts:61-72 | the body that runs is that of the operation, with its own student, target, content and files |
| EndToEndKeys.CompletedKeyReplays | src/common/idempotency/idempotency.service.ts:40-109 | under any schedule, a keyed request of the scope and payload of a COMPLETED record whose first lookup is before its expiry never begins a body; if answered, it gets the identifier in that record, and it fails only if its lookup fails, if it crashes, or if the replay finds no row |
| EndToEndKeys.RetryIsReplayed | src/enrollments/enrollments.service.ts:38-48 | a client that was answered and repeats the operation under the same key before it expires gets the same identifier if it is answered, and the operation is not run again |
| EndToEndResults.PathsApart | src/submissions/submissions.service.ts:61-64 | two operations share a path only if they are of one kind and, for submissions, of one assignment |
| EndToEndResults.SameHashSameCourse | src/enrollments/enrollments.service.ts:38-43 | enrolment payloads with one hash name one course |
| EndToEndResults.SameHashSameWork | src/submissions/submissions.service.ts:61-66 | submission payloads with one hash carry the same content and files |
| EndToEndResults.Source | src/common/idempotency/idempotency.service.ts:40-109 | every success is the result of a run of the same operation: its own, or that of the owner of the record it replays |
| EndToEndResults.SuccessesAgree | src/enrollments/enrollments.service.ts:33-68 | keyed, unkeyed, retried, replayed or by fallback: all successes of one student on one target carry one identifier |
| EndToEndResults.EnrolmentAnswer | src/enrollments/enrollments.service.ts:33-68 | while the course exists, the answer is the one enrolment row of this student in this course |
| EndToEndResults.SubmissionAnswer | src/submissions/submissions.service.ts:55-88 | the answer is the one document of the pair, and it exists |
| EndToEndResults.AnswerHoldsOwnWork | src/submissions/submissions.service.ts:222-227 | the document of a success holds the content and the file list, empty if none, that this very request carried |
| EndToEndResults.OneSubmittingRun | src/submissions/submissions.service.ts:211-231 | only one run of a submission succeeds; every other success is a replay of that run's record |
| EndToEndProgress.OwnMovesBounded | src/common/idempotency/idempotency.service.ts:40-128 | under any schedule a request and its bodies move at most as often as their counter allows |
| EndToEndProgress.ArrivalBound | src/common/idempotency/idempotency.service.ts:40-128 | from its arrival that is at most 25 times: protocol calls, calls of the body and ends of bodies together |
| EndToEndProgress.WholeNeverStuck | src/common/idempotency/idempotency.service.ts:40-128 | a request in flight always has an answer or the end of its body, without any failure, that brings it nearer to its end |
| EndToEndReplays.ReplayingReads | src/enrollments/enrollments.service.ts:235-244 | the stored body that a request replays holds the identifier of the row of its own student and target |
| EndToEndReplays.NoBodyLeft | src/common/idempotency/idempotency.service.ts:40-109 | when a request has its answer none of its bodies is under way |
| EndToEndReplays.NotFoundMeansGone | src/enrollments/enrollments.service.ts:218-233 | NOT_FOUND means that the database failed the replay's call, or that an enrolment's course is gone |
| EndToEndReplays.NotFoundOnlyIfGone | src/submissions/submissions.service.ts:288-302 | where no replay fails and the request does not crash, a submission is never answered NOT_FOUND, an enrolment only if its course is gone |
| EndToEndRace.RaceRuns | src/enrollments/enrollments.service.ts:51-68 | an interleaving of the whole that keeps the course published and crashes or fails no enrolment of the pair is such a run of the learning machine, and every enrolment of the pair in it is the run of one of its requests |
| EndToEndRace.RunUnharmed | src/common/idempotency/idempotency.service.ts:72-87 | a request whose calls on the idempotency table do not fail ends with what its run came to: a failed answer after a run means that the run was rejected |
| EndToEndRace.FirstTimeRequests | src/enrollments/enrollments.service.ts:33-68 | of any number of first-time enrolment requests, keyed or not, that have their answers, exactly one created the row and was answered with it unless its save or clean-up failed; every other body got ALREADY_ENROLLED and every other success is a replay with the same identifier |
| EndToEndResults.ProtocolRuns | src/common/idempotency/idempotency.service.ts:40-128 | every interleaving of the whole is an interleaving of the protocol, and its steps are the protocol's share of the schedule, in order and with the keys, answers and ends of bodies of the schedule; so its results hold for the whole |
| EndToEndResults.LearningRuns | src/enrollments/enrollments.service.ts:51-68 | every interleaving of the whole is an interleaving of the learning machine, whose steps are its share of the schedule, in order |
| EndToEndResults.SubmittersAreEnrolled | src/submissions/submissions.service.ts:74-88 | the cross-store invariant for the whole, without DROPPED writes |
| Admin.LastActiveAdmin | src/admin/admin-users.service.ts:63-122 | once there is an active admin, every sequence of requests leaves one |
| Admin.ActiveActorIsNotRefused | src/admin/admin-users.service.ts:140-161 | the count check never refuses an actor who is an active admin |
| Admin.RefusedIffNoneWouldRemain | src/admin/admin-users.service.ts:140-161 | the count check refuses a change of another user if and only if no active admin would remain |
| Admin.StatusAnswers | src/admin/admin-users.service.ts:63-93 | each answer of a status request if and only if: deactivating oneself; else a missing user; else taking away the only active admin; else the status is stored and a deactivated user's session is gone |
| Admin.RoleAnswers | src/admin/admin-users.service.ts:95-122 | each answer of a role request if and only if: one's own role; else a missing user; else taking away the only active admin; else the role is stored |
| Admin.NextKeepsInv | src/admin/admin-content.service.ts:78-102 | every request keeps the log in step with the tables |
| Admin.AuditReplaysUsers | src/admin/admin-users.service.ts:63-122 | folding the log over the creation defaults gives the stored role and status |
| Admin.AuditReplaysContent | src/admin/admin-content.service.ts:199-239 | folding the log gives the stored moderation; only what is hidden has a reason, exactly what is hidden has a time |
| Admin.ConsecutiveEntriesChain | src/admin/admin-content.service.ts:301-331 | the after-state of a status, role or moderation entry is the before-state of the next one |
| Admin.LoggedIffDone | src/admin/admin-users.service.ts:63-138 | a refused request changes nothing; an accepted one logs one entry with its actor, action and resource, what was stored before and after, and the reason; nothing else that is stored changes but the session of a deactivated user |
| Admin.LoginIffActiveAdmin | src/auth/auth.service.ts:77-97 | an admin login gives an active admin a session and logs who with which role, and no one else anything |
| AdminService.Service.AssertLastActiveAdminRemains | src/admin/admin-users.service.ts:140-161 | the check refuses exactly as the rule says |
| AdminService.Service.SetStatus | src/admin/admin-users.service.ts:63-93 | each refusal if and only if it applies; else the status stored, the token of a deactivated user cleared, and one log entry with both states and the reason; no other user changes and an active admin remains |
| AdminService.Service.SetRole | src/admin/admin-users.service.ts:95-122 | each refusal if and only if it applies; else the role stored and one log entry with both states and the reason; no other user changes and an active admin remains |
| AdminService.Service.EndSessions | src/admin/admin-users.service.ts:124-138 | exactly a stored user's token is cleared, and one entry says whether there was one |
| AdminService.Service.SetModeration | src/admin/admin-content.service.ts:78-102 | exactly for stored content flag, reason and time are set together, all cleared when shown, and one entry of the kind's action says what was before and after |
| AdminService.Service.Login | src/auth/auth.service.ts:77-97 | an active admin gets the token and the log an entry, anyone else is refused |
| AdminService.Service.ServeAll | src/admin/admin-users.service.ts:63-138 | any list of requests keeps the log in step and the last active admin |
| Paging.CeilingBounds | src/common/dto/paginated-response.dto.ts:18-24 | the last page starts before the end of the list and reaches it |
| Paging.PageOfList | src/common/dto/paginated-response.dto.ts:18-24 | a response has the length of the whole list as total, the page and limit asked for, the number of pages of that total, and the rows from the start of its page on |
| Paging.PagesPartition | src/enrollments/enrollments.service.ts:71-86 | pages 1 to `totalPages` give back the list, each is non-empty, all but the last are full, and every later page is empty |

## Left out

- Controllers, modules, validators, Swagger, interceptors, authentication and token flows: the ranges that validators
  enforce (progress and scores 0 to 100, page and limit at least 1) are types or preconditions.
- SHA-256 is an injective constructor; numbers in payloads are integers; `undefined` as a whole payload, for which
  hashing throws, is not a payload.
- `method.toUpperCase()`: both callers pass `POST`.
- An owner's save of a row that someone removed by hand would insert it again; here nobody but the owner removes a row.
  A reactivation save of a row that a removed course took along fails here; the foreign key refuses it in the original.
- `repository.save` of a reactivated enrolment is assumed to be one atomic write of the whole row as it was read. The
  library reads the row again and writes only the columns that differ, so that two saves at the same time could mix
  their columns; such a mixture is not modelled.
- A save that commits and still reports an error to the caller.
- A process that stops between two calls is `Crash`; what a client does about the missing answer is a new request.
- EndToEndResults.SuccessesAgree: it holds while identifiers are never used twice, which is assumed here. A tutor's course
  update (src/courses/courses.service.ts:80-89) and a course moderation read the course and save it later; if the course
  is removed in between, the save inserts it again under its old identifier, its enrolments being gone. Such a
  re-insertion is not modelled: what is stated about a course holds for one life of its row.
- The clock never goes back; nothing else is assumed about time.
- Removal of users and its cascade; removal and unpublishing of single assignments beyond what the course cascade needs
  (unpublishing is a step, removal of one assignment is not).
- `CheckOwner` reads the assignment and its course in one query, as `findOne` with its relation does; the ownership
  check of course and assignment editing is not modelled, any edit may happen at any time.
- Titles, lectures, due-date edits and moderation flags of courses and assignments in the learning machine: no body
  reads them. Due dates are fixed when an assignment is created.
- Lists, filters, name lookup, response mapping, the idempotency-key and audit-log queries of administration.
- Administration under concurrency: those methods read, check and write without a lock, so the last-admin rule and the
  audit chain hold for whole requests one after another. Session entries do not chain: plain logins, refreshes and
  logouts are not logged, and an admin login is logged under another resource type and without a before-state.
- Admin.UpdateModeration: the three moderation methods repeat one body for courses, assignments and submissions and are
  one function over a table keyed by kind and id.
- Paging.TotalPages: `total / limit` is a real quotient, the rounding of doubles above 2^53 is not modelled.
- Progress over reactivation: a stale reactivation may set progress back to 0, so no monotonicity is claimed across it.
- Clean-up of expired keys: there is none, which is why an expired record keeps blocking inserts.
