# Résumé analyser: upload pipeline and score badge

A Dafny model of two parts of the résumé analyser web application, with proofs about them.

- **The upload page** (`app/routes/upload.tsx`), module `UploadRoute` in `upload.dfy`.
  - `handleAnalyze` runs a strictly linear pipeline with early returns. It uploads the résumé, converts it to an image and uploads the image. It then generates an identifier and stores a record with empty feedback under `"resume: " + uuid`. Next it asks the analysis service for feedback. When an answer comes, it takes the answer's text: the content string itself, or the text of the content's first part. It parses that text and stores the record again. Finally it navigates to `/resume/` + uuid.
  - Each stage first shows a progress status. A falsy answer ends the run with an error status.
  - `handleSubmit` starts the pipeline only when a form and a selected file are present.
- **The score badge** (`app/components/ScoreBadge.tsx`), module `ScoreBadge` in `score_badge.dfy`. The two threshold classifiers `getScoreColor` and `getText` share the cut-offs 70 and 49.

How the upload page is modelled:
- The page is the class `UploadPage` with these fields:
  - `isProcessing`, `statusText` and the selected `file` (the page's React state);
  - `kv`, the key-value store, as a map from key to `ResumeRecord`;
  - `location`, the page navigated to.
- A ghost log `history` records, in order, every observable step:
  - status texts;
  - calls to the file service, the PDF converter, the identifier generator, the store and the analysis service;
  - navigations.
- The invariant `Valid` says the fields are what the log implies:
  - the status is the last status text in the log;
  - the store is the initial store with the log's writes replayed;
  - the location is the target of the last navigation in the log.
- What the collaborators answer during one run is an `Environment` value. `None` stands for a falsy answer. The same value supplies the identifier as a string, and `prepareInstructions` and `JSON.parse` as functions.
- `Run` is a pure reference definition of one run: the events it logs and the stage where it stops. The method `HandleAnalyze` follows the source statement by statement and is proved to log exactly `Run`'s events. The lemmas state what `Run` does on each path.
- `StoreAfter` gives the store after a run in closed form. `StoreAfterRun` connects it to the replayed log.

Points where the model follows the code as written:
- The identifier is generated only after the image upload succeeds, not when the run starts.
- The key is `"resume: " + uuid`, with a space after the colon.
- The status "Analyzing..." is set after the first `kv.set`. The first write has no status of its own, and neither does the second.
- Neither result of `kv.set` is looked at: a falsy answer from `kv.set` does not stop the run.
- A failure does not produce a typed error. The handler sets an "Error: …" status and returns nothing.
- `isProcessing` is set at the start and never reset, on every path.
- A `JSON.parse` failure, or an empty list of content parts, is not handled. The model does not treat either as an error path: see "Left out".

## Model

| member | source | states |
|---|---|---|
| ScoreBadge.GetScoreColor | app/components/ScoreBadge.tsx:9-15 | every score gets one of the three colour class strings |
| ScoreBadge.GetText | app/components/ScoreBadge.tsx:17-23 | every score gets one of the three labels |
| ScoreBadge.StrongBand | app/components/ScoreBadge.tsx:10-19 | the label is "Strong", and the colour green, exactly when the score is at least 70 |
| ScoreBadge.GoodStartBand | app/components/ScoreBadge.tsx:12-21 | the label is "Good Start", and the colour yellow, exactly when 49 ≤ score < 70 |
| ScoreBadge.NeedsImprovementBand | app/components/ScoreBadge.tsx:14-22 | the label is "Needs Improvement", and the colour red, exactly when the score is below 49 |
| ScoreBadge.ExactlyOneLabel | app/components/ScoreBadge.tsx:17-23 | every score has exactly one of the three labels |
| ScoreBadge.TextMonotone | app/components/ScoreBadge.tsx:17-23 | a higher score never gets a lower-ranked label (Needs Improvement < Good Start < Strong) |
| ScoreBadge.ColorAgreesWithText | app/components/ScoreBadge.tsx:9-23 | the colour is always the one that goes with the label: green with Strong, yellow with Good Start, red with Needs Improvement |
| ScoreBadge.ColorOfLabelInjective | app/components/ScoreBadge.tsx:9-23 | the three labels have three different colours |
| ScoreBadge.SameColorSameText | app/components/ScoreBadge.tsx:9-23 | two scores whose badges have the same colour have the same label |
| UploadRoute.ResumeKey | app/routes/upload.tsx:58 | the key is "resume: " followed by the identifier, unchanged |
| UploadRoute.ResultsPath | app/routes/upload.tsx:80 | the results page is "/resume/" followed by the identifier, unchanged |
| UploadRoute.KeysDistinguishIds | app/routes/upload.tsx:58-80 | different identifiers give different store keys and different results pages |
| UploadRoute.NormalisationAgrees | app/routes/upload.tsx:70-73 | `FeedbackText`, the normalisation of the answer: a string content "X" and a list whose first part has text "X" give the same text, "X" |
| UploadRoute.Run | app/routes/upload.tsx:21-81 | a run stops at the résumé upload, the conversion, the image upload or the analysis exactly when that answer is the first falsy one, and completes exactly when all four answer |
| UploadRoute.ResumeUploadFailure | app/routes/upload.tsx:34-36 | no uploaded résumé: the statuses are the upload's and then "Error: Failed to upload file!"; the only call is the résumé upload; the store is unchanged; no navigation |
| UploadRoute.ConversionFailure | app/routes/upload.tsx:38-41 | no converted file: the statuses end with "Error: Failed to convert to image!"; the calls are the upload and the conversion only; the store is unchanged; no navigation |
| UploadRoute.ImageUploadFailure | app/routes/upload.tsx:43-45 | no uploaded image: the statuses end with "Error: Failed to upload image!"; no identifier, write or analysis; the store is unchanged; no navigation |
| UploadRoute.AnalysisFailure | app/routes/upload.tsx:58-68 | no analysis answer: the statuses end with "Error: Failed to analyze resume!"; six calls with a single write; the store holds the record with empty feedback; no navigation |
| UploadRoute.Completion | app/routes/upload.tsx:34-80 | full success: the six progress texts in order; the seven calls in order, including both writes; the store holds the record with the parsed feedback; one navigation, to "/resume/" + uuid |
| UploadRoute.CompletionEvents | app/routes/upload.tsx:34-80 | the whole log of a successful run, event by event: each stage's status right before its call, the identifier before the first write, the analysis before the second write, the final status right before the navigation |
| UploadRoute.SuccessTextsOnce | app/routes/upload.tsx:34-77 | on success there are six status updates, and no two of them are the same |
| UploadRoute.StatusNamesStop | app/routes/upload.tsx:36-77 | the last status of every run is the message of the stage where it stopped, and every run shows a status |
| UploadRoute.NavigatesOnlyOnCompletion | app/routes/upload.tsx:80 | a run navigates exactly when it completes, and then the location is "/resume/" + uuid |
| UploadRoute.FirstWrite | app/routes/upload.tsx:47-58 | states the fields of `InitialRecord` (lines 49-57) on the actual first write: once both uploads succeed, the first write comes right after the identifier is generated, under "resume: " + uuid, with the identifier, both upload paths, the three form values verbatim and empty feedback; the analysis is the next call, on the résumé's path; nothing is written or analysed before that point |
| UploadRoute.SecondWrite | app/routes/upload.tsx:75-76 | on success the second write uses the first write's key and record, with only `feedback` replaced by the parsed answer |
| UploadRoute.PartialRecordAfterAnalysisFailure | app/routes/upload.tsx:58-68 | when the analysis answers nothing, the store keeps an entry under the run's key with empty feedback, and there are six calls |
| UploadRoute.EarlyFailureKeepsStore | app/routes/upload.tsx:34-45 | a run that stops before the first write leaves the store unchanged and calls neither the store nor the analysis |
| UploadRoute.StoreAfterRun | app/routes/upload.tsx:58-76 | replaying a run's writes gives the store `StoreAfter` describes: unchanged, the initial record, or the record with parsed feedback |
| UploadRoute.OtherKeysUntouched | app/routes/upload.tsx:58-76 | a run changes no key other than "resume: " + uuid: every other key is present after exactly when it was before, with the same value |
| UploadRoute.Settle | app/routes/upload.tsx:21-81 | a page whose log grew by a run, and whose status, store and location are the run's, satisfies the invariant again, and its store is the earlier store with the run's writes replayed |
| UploadRoute.UploadPage.constructor | app/routes/upload.tsx:13-15 | a new page is not processing, has status "", no file, the given store and no location, and satisfies the invariant |
| UploadRoute.UploadPage.HandleFileSelect | app/routes/upload.tsx:17-19 | the selected file becomes the page's file; nothing else changes |
| UploadRoute.UploadPage.Begin | app/routes/upload.tsx:34-35 | one stage's start: the status is set first, then the collaborator is called; both are logged in that order |
| UploadRoute.UploadPage.Fail | app/routes/upload.tsx:36 | a stage's error exit: the status becomes the error text and is logged |
| UploadRoute.UploadPage.KvWrite | app/routes/upload.tsx:58 | a `kv.set` replaces the value under its key and is logged; its answer is not looked at |
| UploadRoute.UploadPage.Redirect | app/routes/upload.tsx:77-80 | the final status is set, then the page navigates to the given path; both logged |
| UploadRoute.UploadPage.HandleAnalyze | app/routes/upload.tsx:21-81 | the page logs exactly `Run`'s events; it is processing afterwards on every path; it shows the stopping stage's status; it holds the store `StoreAfter` describes; it is on the results page exactly when the run completes, otherwise where it was |
| UploadRoute.UploadPage.StoreAndAnalyze | app/routes/upload.tsx:47-80 | once both uploads and the conversion have succeeded, the rest of the run logs the rest of `Run`'s events and leaves the same status, store and location as `HandleAnalyze` states |
| UploadRoute.UploadPage.HandleSubmit | app/routes/upload.tsx:83-101 | without a form or without a selected file nothing changes; otherwise the three form values and the file run the pipeline, and afterwards the invariant holds and the store is the old store with the run's writes replayed |

## Left out

- `formatSize` and `generateUUID` in `app/utils/format.ts` are not part of this model. `formatSize` is floating-point formatting. The identifier `generateUUID` would return is the `uuid` field of the environment.
- The file uploader component (`app/components/FileUploader.tsx`) and all JSX rendering are not part of this model. From the uploader, only the file it reports is modelled, as `HandleFileSelect`'s argument.
- The collaborators are not modelled: `fs.upload`, `convertPdfToImage`, `ai.feedback`, `kv.set`'s remote side, `prepareInstructions` and `JSON.parse`. Their answers for one run are inputs, and so are the last two functions.
- `JSON.stringify` is not modelled: the store holds record values, not their JSON text.
- UploadRoute.Run: an analysis answer the run reaches whose content is an empty list of parts is excluded by the precondition `Readable`. The page reads `content[0].text` there and throws, an exception it does not handle.
- UploadRoute.Run: `parse` is a total function, so the model has no case where `JSON.parse` throws. The page does not handle that exception either.
- `console.log(data)` is output only, and is left out.
- UploadRoute.UploadPage.KvWrite: the model's `kv` treats every `kv.set` as performed, and the environment carries no answer for it. So the claims about the store hold only for writes the service actually carries out. They cover the record with empty feedback after a failed analysis, the record with parsed feedback on success, and `StoreAfter`. A write the service declines leaves the real store without it, while the run goes on exactly as modelled.
- A collaborator whose promise rejects is not modelled. This covers `fs.upload`, `convertPdfToImage`, `kv.set` and `ai.feedback`, all awaited at lines 35, 39, 44, 58, 61 and 76. The page has no `try`/`catch`, so the rejection escapes `handleAnalyze`. The page is then left with the last progress status on screen, for instance "Preparing Data" after a rejected first write, with `isProcessing` still set and no "Error: …" status. The `Option` answers of the environment model only answers that resolve, falsy or not.
- UploadRoute.Feedback: a parsed answer `Parsed(v)` is never equal to `EmptyFeedback`. In the page, `JSON.parse('""')` gives `""`, so a completed record can look exactly like the partial record left when the analysis answers nothing. The model keeps the two apart.
- Asynchrony is not modelled. Each awaited call is one atomic step, and React's batching of state updates is ignored.
- UploadRoute.UploadPage.HandleSubmit: `e.preventDefault()` and looking up the form are reduced to an optional `FormFields` value. `formData.get(...) as string` is taken to yield strings, and a missing field is not modelled.
- UploadRoute.UploadPage.HandleSubmit: the form is hidden while `isProcessing` is set, so the page offers no second submission. The model does not require `!isProcessing` before a submission.
- NaN scores are not modelled: the score is a `real`. For NaN, every comparison in the source is false, so the result would be red and "Needs Improvement".
