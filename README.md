# AI resume analyzer — a Dafny model of its core

This project models the core of the AI resume analyzer web app. On the
upload page a user submits a PDF resume with a company name, job title and
job description. The page then:

- uploads the file and converts it to an image, then uploads the image;
- stores an analysis record under `resume:<uuid>` with empty feedback;
- asks the inference service for a review, using instructions built from the
  job title and description;
- cuts the JSON object out of the answer, parses it, and stores the record
  again with the parsed feedback.

The wipe page lists the stored records. It deletes one record with its two
files, or deletes every listed record's files and then empties the whole
key-value store. The display components turn a score into a band at 80 and
50, and turn an analysis into the fixed list of four detail categories.

Modules:

- `Puter` holds the storage and inference collaborators as a `Backend` class.
  The class keeps a key-value map, a set of stored files and the log of calls
  made. How each call turns out (returns, throws, answers `false`) is an input.
- `Constants` holds the `Feedback`/`Resume` schema, the sample records, the
  JSON example and the instruction template.
- `Extraction` holds the choice of the response text and the greedy
  `/\{[\s\S]*\}/` match.
- `Upload` holds `handleAnalyze` and `handleSubmit`. The pure functions
  `Prepare`/`Complete`/`Analyze` say what one run does. The `UploadPage`
  methods do it step by step and are proved to agree with them.
- `Wipe` holds `loadResumes`, `handleDeleteResume` and `handleDeleteAll` as
  methods of `WipePage`.
- `ScoreBadge`, `Ats` and `Details` hold the display derivations.

Behaviour of the code worth knowing, which the model keeps:

- Bulk deletion deletes each listed record's two files, then flushes the whole
  store, keys without the `resume:` prefix included. It does not delete each
  record's key in turn.
- The extracted text is parsed and stored with no schema check.
- Extraction succeeds whenever some `}` follows the first `{`.
- A response whose content is a non-empty string of blanks is not rejected.
  Only a falsy content is rejected.

## Model

| member | source | states |
|---|---|---|
| Puter.MessageOf | app/routes/upload.tsx:92 | a thrown `Error` reports its own message; any other thrown value reports "An unknown error occurred." |
| Puter.ResumeKeyFacts | app/routes/upload.tsx:47 | every record key `resume:<id>` matches the `resume:*` listing pattern, and distinct ids give distinct keys |
| Puter.ListResumeEntries | app/routes/wipe.tsx:25 | the listing holds exactly the `resume:` entries of the store, each once, with its stored value |
| Puter.ValuesOf | app/routes/wipe.tsx:26 | the listed records are the listing's values, one per item and in listing order |
| Puter.Backend.Upload | app/routes/upload.tsx:27-28 | logs the upload; a returned path becomes a stored file, and a failed or empty answer stores nothing |
| Puter.Backend.Delete | app/routes/wipe.tsx:55-59 | logs the deletion; the file is gone unless the call throws; the store is untouched |
| Puter.Backend.Convert | app/routes/upload.tsx:31 | logs the conversion and changes no stored file or key |
| Puter.Backend.Feedback | app/routes/upload.tsx:50-57 | logs the inference call with the resume path and the job context and stores nothing |
| Puter.Backend.Set | app/routes/upload.tsx:47 | logs the write; the value is stored under the key only when the call answers `true` |
| Puter.Backend.Remove | app/routes/wipe.tsx:69 | logs the key deletion; the key is absent afterwards unless the call throws, and every other key is unchanged |
| Puter.Backend.Flush | app/routes/wipe.tsx:103 | logs the flush; the store is empty afterwards unless the call throws |
| Puter.Backend.List | app/routes/wipe.tsx:25-26 | logs `kv.list('resume:*')`; the answer is the thrown value, no list, or a complete listing of the `resume:` entries |
| Constants.SampleResumesAreWellFormed | constants/index.ts:38-70 | every score in the sample records lies in 0..100, every tip list is present, and the sample ids are distinct |
| Constants.ExampleFeedbackIsWellFormed | constants/index.ts:77-111 | the feedback the JSON example spells out has every score in 0..100 and every tip list present |
| Constants.JsonExampleIsBraced | constants/index.ts:77-111 | the JSON example starts with `{` and ends with `}` |
| Constants.PrepareInstructions | constants/index.ts:116-133 | the instructions open with the preamble and `The job title is: ` + title, and are longer than the empty-input text by exactly the two inputs' lengths: nothing is escaped or dropped |
| Constants.InstructionsQuoteInputs | constants/index.ts:116-133 | the instructions contain `The job title is: ` + title, `The job description is: "` + description + `"`, and the JSON example, all verbatim |
| Constants.InstructionsAreAmbiguous | constants/index.ts:126-127 | since nothing is escaped, two different title/description pairs give the very same instructions |
| Extraction.SelectText | app/routes/upload.tsx:63-67 | string content is used as is; array content gives its first element's `text` when that is truthy; anything else gives `''` |
| Extraction.ResponseText | app/routes/upload.tsx:59-67 | no text exactly when the response is missing or its content is missing or falsy; otherwise the selected text |
| Extraction.FirstIndexOf | app/routes/upload.tsx:70 | the position of the first occurrence of a character, or none when it does not occur |
| Extraction.LastIndexOf | app/routes/upload.tsx:70 | the position of the last occurrence of a character, or none when it does not occur |
| Extraction.ExtractJson | app/routes/upload.tsx:70-75 | a match exists exactly when some `}` follows some `{`, and the match is a span of the text from one to the other |
| Extraction.ExtractJsonIsReportedMatch | app/routes/upload.tsx:70-75 | the result is the leftmost-longest match of `\{[\s\S]*\}`: none exactly when no match exists; otherwise such a reported match exists and the result is it, from the first `{` to the last `}` |
| Extraction.ExtractJsonKeepsBracedText | app/routes/upload.tsx:70-75 | a text that starts with `{` and ends with `}` is returned unchanged |
| Extraction.ExtractJsonIsIdempotent | app/routes/upload.tsx:70-75 | extracting from an extracted object gives the same object |
| Extraction.ExtractJsonDropsSurroundingProse | app/routes/upload.tsx:70-75 | prose without braces before and after a braced object is cut away |
| Extraction.ClosingBraceFirstIsNoMatch | app/routes/upload.tsx:70-74 | any text whose every `}` comes before every `{` gives no match, so the run fails there |
| Extraction.ClosingBraceFirstExample | app/routes/upload.tsx:70-74 | for instance `"} {"` gives no match |
| Extraction.JsonExampleSurvivesExtraction | app/routes/upload.tsx:70-75 | the JSON example from the instructions passes through extraction unchanged |
| Upload.Prepare | app/routes/upload.tsx:23-47 | the first four steps: a stopped run has failed after 1 to 4 steps with one call per step; a run that goes on has made four calls, and its record has the uuid as id, empty feedback, and is stored exactly when the write answered `true` |
| Upload.Complete | app/routes/upload.tsx:49-88 | the remaining steps reach step 5 or later, only append calls to the first four, store no file, and succeed only with all nine steps and the uuid |
| Upload.Analyze | app/routes/upload.tsx:22-95 | a run reaches 1 to 9 steps, and a successful one reached all nine with the uuid as id |
| Upload.SucceedsExactlyWhenEveryStepSucceeds | app/routes/upload.tsx:26-88 | a run succeeds exactly when both uploads and the conversion give a file, neither write throws, the response holds text with a JSON object, and that object parses |
| Upload.FailureStopsLaterSteps | app/routes/upload.tsx:26-95 | a run attempts a non-empty prefix of the nine steps, and success means every step ran and the id is the uuid; for each of the nine steps, when it fails after every earlier one went its way, the run ends at that step with that step's message (the upload, conversion and image-upload messages, the thrown message, or the three response messages) and with exactly the calls up to its own; a run that stops within the first four steps never calls inference |
| Upload.CallsMatchSteps | app/routes/upload.tsx:27-84 | the calls a run makes are one per calling step it attempted, in step order: upload, convert, upload, write, inference, write |
| Upload.RecordWrittenBeforeInference | app/routes/upload.tsx:27-57 | the first upload names the chosen file, the conversion converts it and the second upload names the converted image; the first write precedes inference, under `resume:` + uuid, with empty feedback, the submitted fields and the paths the two uploads returned; inference gets the uploaded resume's path and this job's context |
| Upload.PrepareWritesRecord | app/routes/upload.tsx:27-47 | a run that passes its first four steps has made exactly the two uploads, the conversion and the write of the record built from the uuid, the returned paths and the submitted fields, with empty feedback |
| Upload.SecondWriteChangesOnlyFeedback | app/routes/upload.tsx:40-47 | both writes use the same key, and the records differ only in `feedback`, which is the parse of the extracted span |
| Upload.ResponseFailuresStopEarly | app/routes/upload.tsx:59-74 | a missing or falsy response fails with "AI analysis returned an invalid response." before extraction; no JSON object fails with "AI did not return a valid data structure." before parsing |
| Upload.SuccessStoresFeedback | app/routes/upload.tsx:77-88 | on success, and when the second write answers `true`, the stored record holds the parsed feedback |
| Upload.RunKeepsStoreKeyedById | app/routes/upload.tsx:39-84 | the record a run stores under `resume:` + uuid has the uuid as id, so a store whose every record sits under its own id's key stays that way |
| Upload.CompleteExtendsPrepared | app/routes/upload.tsx:49-88 | the later steps only append calls, store no file, and keep the stored record or replace it |
| Upload.UploadPage.Fail | app/routes/upload.tsx:90-94 | the status becomes `Error: ` + message and processing stops |
| Upload.UploadPage.PrepareRun | app/routes/upload.tsx:23-47 | the first four steps act on the backend and page exactly as `Prepare` says; when the run goes on, the record holds empty feedback |
| Upload.UploadPage.CompleteRun | app/routes/upload.tsx:49-95 | the remaining steps act on the backend and page exactly as `Complete` says, and navigate to `/resume/<uuid>` only on success |
| Upload.UploadPage.HandleAnalyze | app/routes/upload.tsx:22-96 | the whole run acts as `Analyze` says: calls, files and record stored, status text, processing flag, and navigation only on success |
| Upload.UploadPage.HandleSubmit | app/routes/upload.tsx:109-114 | with no file, it alerts "Please select a resume file to upload." and changes nothing else; otherwise its effect on calls, files, store, status, processing flag, navigation and alerts is the analysis run's |
| Wipe.ShowsExactlyTheStoredRecords | app/routes/wipe.tsx:25-27 | a loaded list shows only records stored under `resume:` keys, and every such record |
| Wipe.ShowsEmptyStore | app/routes/wipe.tsx:103-106 | an empty store loads as the empty list, and only as that |
| Wipe.DeletedRecordIsNotShown | app/routes/wipe.tsx:69-72 | once a record's key is deleted from a store keyed by id, the reloaded list holds no record with that id |
| Wipe.DeletionCalls | app/routes/wipe.tsx:88-100 | two file deletions per record |
| Wipe.DeletionCallsAt | app/routes/wipe.tsx:88-100 | record `i`'s resume and image deletions sit at positions `2i` and `2i+1` |
| Wipe.EveryFileIsAttempted | app/routes/wipe.tsx:88-100 | both files of every listed record are named in the bulk deletion |
| Wipe.PathsOfAreRecordPaths | app/routes/wipe.tsx:88-100 | the paths the bulk deletion works on are exactly the resume and image paths of the listed records |
| Wipe.DeletionCallsNamePathsOf | app/routes/wipe.tsx:88-100 | the bulk deletion issues `fs.delete(p)` exactly for the paths of the listed records: all of them, and no other path |
| Wipe.WipePage.LoadResumes | app/routes/wipe.tsx:22-33 | lists only `resume:*` keys and changes no store; a thrown error leaves the list as it was, no answer gives `[]`, and loading always ends cleared |
| Wipe.WipePage.DeleteResume | app/routes/wipe.tsx:47-79 | declined: nothing changes. Confirmed: both files are tried and failures are ignored. The key `resume:` + id is deleted, and every other key is kept. The list is then reloaded, or a failed key deletion raises an alert. The deleting id is set, then cleared on every path |
| Wipe.WipePage.DeleteFiles | app/routes/wipe.tsx:88-100 | tries both deletions for every record, in order, whatever the earlier ones did; exactly the paths whose deletion succeeds are removed |
| Wipe.WipePage.DeleteAll | app/routes/wipe.tsx:81-111 | declined: nothing changes. Confirmed: every file is tried, then the store is flushed (emptied entirely) and reloaded to `[]`; a failed flush alerts and keeps the store |
| ScoreBadge.BadgeFor | app/components/ScoreBadge.tsx:8-20 | green "Strong" exactly from 80 up, yellow "Needs Improvement" exactly for 50..79, red "Needs Work" exactly below 50 |
| ScoreBadge.OneLabelPerScore | app/components/ScoreBadge.tsx:11-20 | every score gets one of the three badges, and the three labels are distinct |
| ScoreBadge.BadgeIsMonotone | app/components/ScoreBadge.tsx:11-20 | a higher score never gets a worse badge |
| ScoreBadge.BandEdges | app/components/ScoreBadge.tsx:11-20 | 80 is "Strong", 79 and 50 are "Needs Improvement", 49 is "Needs Work" |
| Details.Categories | app/components/Details.tsx:88-113 | four categories in the order tone-style, content, structure, skills, with titles "Tone & Style", "Content", "Structure", "Skills" |
| Details.CategoryIdsAreDistinct | app/components/Details.tsx:88-113 | the four category ids are distinct |
| Details.CategoriesFollowSections | app/components/Details.tsx:92-111 | each category's score is its section's score; present tips pass through unchanged and in order, absent tips become `[]` |
| Details.CategoriesIgnoreAts | app/components/Details.tsx:88-113 | the ATS section never reaches the list: changing it changes no category |
| Details.TipStyleFor | app/components/Details.tsx:42-66 | a "good" tip gets check.svg, "Good" and the green box; any other gets warning.svg, "Warning" and the yellow box |
| Details.TipStyles | app/components/Details.tsx:39-75 | one style per tip, in tip order, each chosen by the tip's type |
| Ats.HeaderFor | app/components/ATS.tsx:14-31 | green gradient, ats-good.svg, "Good ATS Score" exactly from 80 up; yellow, ats-warning.svg, "Warning ATS Score" for 50..79; red, ats-bad.svg, "Poor ATS Score" below 50 |
| Ats.ClosingMessage | app/components/ATS.tsx:76-81 | the three closing lines, each chosen exactly in its score band |
| Ats.ClosingMatchesHeader | app/components/ATS.tsx:19-31 | the closing line always belongs to the same band as the header icon |
| Ats.HeaderMatchesScoreBadge | app/components/ATS.tsx:19-31 | the ATS card and the score badge put every score in the same band |
| Ats.SuggestionIcon | app/components/ATS.tsx:61-62 | a "good" suggestion gets check.svg/"Good"; any other gets warning.svg/"Warning" |
| Ats.SuggestionIconMatchesTipIcon | app/components/ATS.tsx:61-62 | a suggestion's icon equals the icon a detail tip of the same type gets |

## Left out

- Rendering: JSX, CSS beyond the band and tip-style choices, React hooks and effects, the accordion, the navbar and the loading and auth redirects are not modelled. Navigation is the `navigatedTo` field. An alert is an entry of `alerts`. `console` logging is dropped.
- Concurrency: each handler runs to completion as one sequential method. React's batching of state updates and overlapping handler runs are not modelled. `deletingId` keeps its history in a ghost field instead.
- The Puter clients, `convertPdfToImage` and `generateUUID` are not modelled from the inside. Their outcomes and the uuid are inputs. The converter's image is the name the model uploads.
- `JSON.parse` is an arbitrary partial function parameter. `JSON.stringify`/`JSON.parse` of stored records is taken as a faithful round trip, so the store holds `Record` values rather than strings. Records the wipe page cannot parse are not modelled.
- A present `message.content` is a string, an array or another truthy value. The falsy values other than `''` (`0`, `false`, `null`, `NaN`) are modelled as missing content, which the code rejects with the same message.
- Scores are JavaScript numbers but are modelled as integers. Fractions and `NaN` are not modelled.
- Tip types are modelled as the two declared values. A parsed tip whose `type` is some other string behaves like "improve" in every display choice.
- The prompt is recorded in the call log as the job context it is built from. `Constants.PrepareInstructions` builds the text itself.
- `kv.list` answers in an order of its own choosing. The model fixes no order, and its listing lemmas hold for any order.
- Wipe.WipePage.DeleteAll: a file deletion fails or succeeds by its path (the `failing` set). Two records that share a path therefore cannot see different outcomes for it.
- The form lookup in `handleSubmit` (`closest('form')`, `FormData`) is not modelled. The three fields and the chosen file are parameters.
