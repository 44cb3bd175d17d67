# PayFix repair-request intake, modelled in Dafny

PayFix is a small web app for booking phone repairs. A customer fills in a
repair form: name, e-mail, device, issue description and urgency tier. They
can add a voice memo and a photo. The form uploads the media to object
storage, inserts a `repair_requests` row, asks a serverless function to send
a confirmation e-mail, and shows a summary page.

This project models that logic as pure Dafny functions over immutable data
and proves what each step promises. The pieces are:

- the validator;
- the upload routine, with its error classification and single retry on a
  duplicate key;
- the construction of the stored row and the submission pipeline;
- the confirmation function's request dispatch;
- the voice recorder and the photo picker as state machines that return the
  browser calls they make;
- the summary page and the page shell.

Storage, the database, the function invocation, the e-mail provider, the
clock, the random token and object URLs are not executed. Each becomes a
parameter:

- an upload oracle (`RepairForm.UploadEnv`) holds the key seeds and storage's
  answers for one upload;
- `RepairForm.SubmitEnv` holds the insert and function answers;
- `ConfirmationEmail.Env` holds the API key and the provider's answer;
- `publicUrl` stands for storage's URL builder;
- fresh handles stand for streams, recorders, timers and object URLs.

Every operation returns the calls it made together with its result, so
properties such as "no network call before validation passes" are statements
about values.

Modules and files:

| file | module | what it holds |
|---|---|---|
| `base.dfy` | `Base` | `Option`, `Result`, bytes, handles, first-match search |
| `js_strings.dfy` | `JsStrings` | the JavaScript string operations used: white space, `trim`, `includes`, `startsWith`, ASCII `toLowerCase`, `split('.').pop()`, `slice(-8)`, integer `toString` |
| `email_pattern.dfy` | `EmailPattern` | the loose e-mail pattern and a scanner proved equal to it |
| `types.dfy` | `Types` | urgency, status, the stored row, urgency-table rows, blobs and files |
| `phone_models.dfy` | `PhoneModels` | the device list and the urgency table, and their lookups |
| `confirmation_email.dfy` | `ConfirmationEmail` | the confirmation function |
| `repair_form.dfy` | `RepairForm` | validation, upload, record, submission |
| `voice_recorder.dfy` | `VoiceRecorder` | the recorder widget and the clock display |
| `photo_upload.dfy` | `PhotoUpload` | the photo picker |
| `success_message.dfy` | `SuccessMessage` | the summary page |
| `app.dfy` | `App` | the form/summary switch |

Source paths below are relative to the repository root.

## Model

| member | source | states |
|---|---|---|
| JsStrings.Trim | project-bolt-sb1-mz1jluga/project/src/components/RepairForm.tsx:32-47 | `trim()` removes exactly the leading and trailing JavaScript white space (the `\s` set). The result is empty exactly when the whole string is white space. |
| JsStrings.AfterLast | project-bolt-sb1-mz1jluga/project/src/components/RepairForm.tsx:170 | `split('.').pop()` returns a suffix of the name that contains no '.', and that suffix is either the whole name or preceded by a '.'. |
| JsStrings.SliceFromEnd | project-bolt-sb1-mz1jluga/project/supabase/functions/send-confirmation-email/index.ts:58 | `slice(-n)` returns the last min(n, length) characters, i.e. a suffix of that length. |
| JsStrings.NatToString | project-bolt-sb1-mz1jluga/project/src/components/RepairForm.tsx:60-62 | A non-negative integer renders as at least one decimal digit, with no leading zero except for 0 itself. |
| JsStrings.ParseNatToString | project-bolt-sb1-mz1jluga/project/src/components/VoiceRecorder.tsx:127-129 | Reading back the decimal rendering of any n gives n. |
| EmailPattern.RegexMatchesIffAnchored | project-bolt-sb1-mz1jluga/project/src/components/RepairForm.tsx:38 | The unanchored pattern `\S+@\S+\.\S+` matches iff the string contains an '@' with a non-blank character before it, followed by a non-blank run, a '.', and one more non-blank character. |
| EmailPattern.LooksLikeEmail | project-bolt-sb1-mz1jluga/project/src/components/RepairForm.tsx:38 | The left-to-right scanner answers true exactly when the pattern matches somewhere in the string. |
| EmailPattern.LooksLikeEmailExamples | project-bolt-sb1-mz1jluga/project/src/components/RepairForm.tsx:38 | "jane" and "a@.c" fail. "jane@x.com" passes, and so does " a@b.c trailing", because the pattern is not anchored. |
| Types.ParseUrgency | project-bolt-sb1-mz1jluga/project/src/types/index.ts:9 | Exactly "low", "medium" and "high" name an urgency tier, each its own. |
| Types.ParseUrgencyValue | project-bolt-sb1-mz1jluga/project/src/types/index.ts:15 | Spelling a tier and reading it back returns that tier. |
| Types.ParseStatus | project-bolt-sb1-mz1jluga/project/src/types/index.ts:11 | Exactly "pending", "in_progress" and "completed" name a status, each its own. |
| Types.ParseStatusValue | project-bolt-sb1-mz1jluga/project/src/types/index.ts:11 | Spelling a status and reading it back returns that status. |
| PhoneModels.PhoneModelsWellFormed | project-bolt-sb1-mz1jluga/project/src/constants/phoneModels.ts:1-23 | Model values are pairwise distinct (usable as list keys) and never the unselected value "". Labels are non-empty, and the catch-all `other` is the last entry. |
| PhoneModels.UrgencyLevelsTable | project-bolt-sb1-mz1jluga/project/src/constants/phoneModels.ts:25-50 | There are exactly three tiers, ordered low, medium, high, with turnarounds "5-7 business days", "2-3 business days" and "24-48 hours". |
| PhoneModels.TierIndex | project-bolt-sb1-mz1jluga/project/src/constants/phoneModels.ts:25-50 | Every tier of the type has a row in the table carrying that tier. |
| PhoneModels.FindPhoneModel | project-bolt-sb1-mz1jluga/project/src/components/SuccessMessage.tsx:12 | Any entry with the looked-up value is the one found, since values are distinct. Nothing is found exactly when no entry has that value. |
| PhoneModels.LabelsNonEmpty | project-bolt-sb1-mz1jluga/project/src/components/SuccessMessage.tsx:38 | A found model's label is non-empty, so the `\|\|` fallback to the raw value applies only when nothing is found. |
| PhoneModels.FindUrgencyLevel | project-bolt-sb1-mz1jluga/project/src/components/SuccessMessage.tsx:13 | The lookup always succeeds and returns the tier's own row. |
| ConfirmationEmail.UrgencyDetailsFor | project-bolt-sb1-mz1jluga/project/supabase/functions/send-confirmation-email/index.ts:52-56 | "low" and "high" get their own details. "medium" and every other value get the medium details (corrected lookup, see Findings). |
| ConfirmationEmail.UrgencyTablesAgree | project-bolt-sb1-mz1jluga/project/supabase/functions/send-confirmation-email/index.ts:53-55 | For each tier, the function's label and turnaround equal the form's table, row for row. |
| ConfirmationEmail.Subject | project-bolt-sb1-mz1jluga/project/supabase/functions/send-confirmation-email/index.ts:58 | The subject is the fixed prefix, the device, " (ID: ", the last min(8, length) characters of the request id (a suffix of it), and ")". |
| ConfirmationEmail.TurnaroundShown | project-bolt-sb1-mz1jluga/project/supabase/functions/send-confirmation-email/index.ts:114 | A present, non-empty turnaround from the caller is shown as given. An absent or empty one falls back to the tier's. The shown text is empty only when both are. |
| ConfirmationEmail.Compose | project-bolt-sb1-mz1jluga/project/supabase/functions/send-confirmation-email/index.ts:52-58 | The message goes to the requested address alone, under the subject built from device and id. Label and color are the tier's details. The turnaround is the caller's when truthy, otherwise the tier's, and never empty. |
| ConfirmationEmail.Handle | project-bolt-sb1-mz1jluga/project/supabase/functions/send-confirmation-email/index.ts:12-247 | Dispatch, with each status given as an if-and-only-if: OPTIONS → 200, no body; a content type without `application/json` → 415; any required field falsy → 400 naming all five; unreadable body, missing key or unreachable provider → 500, whose body carries the exception's message (the parse error, the missing-key text, or the provider's error); provider rejection → 502 with its payload; provider acceptance → 200 echoing id, recipient and subject. The provider is called exactly when the request passes every check and the key is set. |
| ConfirmationEmail.HandleStatusCodes | project-bolt-sb1-mz1jluga/project/supabase/functions/send-confirmation-email/index.ts:12-247 | Every answer carries one of 200, 400, 415, 500, 502. |
| ConfirmationEmail.UnknownUrgencyDefaultsToMedium | project-bolt-sb1-mz1jluga/project/supabase/functions/send-confirmation-email/index.ts:52-56 | An unknown tier still gets a 200 confirmation, showing "Medium Priority" and "2-3 business days". |
| ConfirmationEmail.TurnaroundFallback | project-bolt-sb1-mz1jluga/project/supabase/functions/send-confirmation-email/index.ts:114 | The e-mail shows the caller's turnaround when it is truthy, otherwise the tier's. |
| ConfirmationEmail.UrgencyLookupAsWritten | project-bolt-sb1-mz1jluga/project/supabase/functions/send-confirmation-email/index.ts:52-56 | Indexing the object literal yields an inherited member exactly for the names `Object.prototype` carries under Deno's default runtime, which removes `__proto__`; that name falls back to the medium tier. |
| ConfirmationEmail.RenderedDetailsAsWritten | project-bolt-sb1-mz1jluga/project/supabase/functions/send-confirmation-email/index.ts:52-56 | As written, an inherited name renders label and turnaround as "undefined". Other unknown names render the medium details. |
| ConfirmationEmail.InheritedUrgencyRendersUndefined | project-bolt-sb1-mz1jluga/project/supabase/functions/send-confirmation-email/index.ts:52-56 | Urgency "toString" renders "undefined", not the medium tier. |
| ConfirmationEmail.CorrectedLookupAgrees | project-bolt-sb1-mz1jluga/project/supabase/functions/send-confirmation-email/index.ts:52-56 | The written and the corrected lookup agree exactly on names that objects do not inherit. |
| RepairForm.ValidateForm | project-bolt-sb1-mz1jluga/project/src/components/RepairForm.tsx:29-50 | Each field's error is an if-and-only-if. Name is blank ⇔ "Full name is required". Model is "" ⇔ "Please select your phone model". Description is blank and there is no memo ⇔ the description error. Blank e-mail gives "Email is required". Otherwise "Please enter a valid email address" appears exactly when the pattern fails. There is never an urgency key. |
| RepairForm.ValidIff | project-bolt-sb1-mz1jluga/project/src/components/RepairForm.tsx:29-53 | The form is valid (empty error map) iff the name is not blank, the e-mail matches the pattern, a model is chosen, and there is a description or a voice memo. |
| RepairForm.ObjectNameInjective | project-bolt-sb1-mz1jluga/project/src/components/RepairForm.tsx:60-62 | `${timestamp}-${token}` splits back uniquely into timestamp and token. |
| RepairForm.ObjectPathInjective | project-bolt-sb1-mz1jluga/project/src/components/RepairForm.tsx:60-63 | Two key seeds give the same object path only if they are the same seed. |
| RepairForm.UploadContentType | project-bolt-sb1-mz1jluga/project/src/components/RepairForm.tsx:69-84 | Voice uploads are always sent as `audio/webm`. Other payloads keep their own type, and no type is sent when theirs is empty. |
| RepairForm.ClassifyStorageError | project-bolt-sb1-mz1jluga/project/src/components/RepairForm.tsx:86-121 | Case-sensitive substring classification, first match wins: "Bucket not found", then "size", then "mime" or "type", then "duplicate". Anything else keeps the message. Each kind is stated as an if-and-only-if. |
| RepairForm.ClassifyIsFirstMatch | project-bolt-sb1-mz1jluga/project/src/components/RepairForm.tsx:90-96 | The classifier equals the first-match reading of the ordered rule table. |
| RepairForm.UploadFile | project-bolt-sb1-mz1jluga/project/src/components/RepairForm.tsx:55-136 | There are one or two storage calls, with the same bytes and content type. The second happens exactly on a "duplicate" error, at the retry seed's path. Success returns the public URL of the last path tried. A non-duplicate error gives the classified message. A failed retry gives "Upload failed: " + its message. |
| RepairForm.UploadFailsIff | project-bolt-sb1-mz1jluga/project/src/components/RepairForm.tsx:86-121 | An upload fails exactly when the first attempt is rejected and, if that rejection was a duplicate key, the retry is rejected too. |
| RepairForm.StorageAcceptsIff | project-bolt-sb1-mz1jluga/project/src/components/RepairForm.tsx:146-177 | Both uploads of a submission succeed exactly when storage accepts each present payload, counting the retry after a duplicate key; an absent payload needs nothing. |
| RepairForm.UploadErrorMessage | project-bolt-sb1-mz1jluga/project/src/components/RepairForm.tsx:90-120 | A missing bucket, an oversized file and an unsupported type each show their own fixed sentence ("Storage not configured. Please contact support.", "File too large. Maximum size is 10MB.", "File type not supported."). A failure storage did not classify is shown as "Upload failed: " followed by storage's own message, and only such failures start with that prefix. |
| RepairForm.UploadErrorMessageInjective | project-bolt-sb1-mz1jluga/project/src/components/RepairForm.tsx:90-120 | Two non-duplicate failures show the same message exactly when they are the same failure. |
| RepairForm.RetryUrlIsNotFirstUrl | project-bolt-sb1-mz1jluga/project/src/components/RepairForm.tsx:96-118 | After a successful retry with a fresh seed, the URL returned is not the first path's URL (given an injective URL builder). |
| RepairForm.PhotoExtension | project-bolt-sb1-mz1jluga/project/src/components/RepairForm.tsx:170 | The extension is the lower-cased text after the last '.', or the whole name when there is none. The default "jpg" is used exactly when that text is empty. It never contains '.' or an upper-case ASCII letter. |
| RepairForm.BuildRecord | project-bolt-sb1-mz1jluga/project/src/components/RepairForm.tsx:180-189 | The row is pending, with the form's urgency and its name, e-mail and model verbatim (untrimmed). Id and timestamp are left to the store. Every optional value reads back as given, and "" is stored as null, never as "". |
| RepairForm.ConfirmationBody | project-bolt-sb1-mz1jluga/project/src/components/RepairForm.tsx:211-220 | The confirmation call carries the form's e-mail, name and model, the stored row's id, the tier's spelling (which reads back as the tier) and the tier's own turnaround from the form's table. |
| RepairForm.RunPipeline | project-bolt-sb1-mz1jluga/project/src/components/RepairForm.tsx:145-234 | The storage calls are the voice memo's, then, only if that succeeded, the photo's. A failed voice or photo upload ends the run with its prefixed message. A record is inserted exactly when both uploads succeed, and it is the record built from the form and the two URLs. The run succeeds exactly when the insert does, delivering the row the store returned. An insert error gives the fixed save message. The confirmation call is made exactly on success, with the form's fields and the stored row's id. |
| RepairForm.HandleSubmit | project-bolt-sb1-mz1jluga/project/src/components/RepairForm.tsx:138-249 | The errors shown are the validator's. An invalid form raises nothing and makes no storage, database or function call. A valid form raises `isSubmitting` and ends with exactly one of an alert or a delivered row. `isSubmitting` ends false on every path. |
| RepairForm.InsertFailureReported | project-bolt-sb1-mz1jluga/project/src/components/RepairForm.tsx:180-203 | An insert error alerts "Failed to save request. Please try again." after sending the record built from the form and URLs, with no confirmation call and no success. |
| RepairForm.ConfirmationReplyIgnored | project-bolt-sb1-mz1jluga/project/src/components/RepairForm.tsx:207-234 | Whatever the confirmation function answers (success, error or exception), the submission run is identical. |
| RepairForm.PipelineIgnoresConfirmation | project-bolt-sb1-mz1jluga/project/src/components/RepairForm.tsx:207-231 | The pipeline reads only the storage and database answers. |
| RepairForm.SuccessDeliversStoredRow | project-bolt-sb1-mz1jluga/project/src/components/RepairForm.tsx:180-234 | After a successful insert, the database received the built record, `onSubmitSuccess` receives the row the store returned, the confirmation call carries that row's id, and nothing is alerted. |
| RepairForm.DeliveredRowEchoesForm | project-bolt-sb1-mz1jluga/project/src/components/RepairForm.tsx:180-234 | When the store echoes a record built from the form and some URLs, the delivered row holds the form's name, e-mail, model and tier verbatim, status pending, the description or null, and those URLs or null. |
| RepairForm.VoiceUploadFailureReported | project-bolt-sb1-mz1jluga/project/src/components/RepairForm.tsx:150-164 | When storage rejects a present voice memo, the upload fails and the form alerts "Failed to upload voice recording: " + its message. Only the voice calls were made, and nothing was inserted. |
| RepairForm.PhotoUploadFailureReported | project-bolt-sb1-mz1jluga/project/src/components/RepairForm.tsx:167-177 | When the voice step succeeds and storage rejects a present photo, the form alerts "Failed to upload photo: " + its message, and nothing is inserted. |
| RepairForm.ConfirmationBodyAdmissible | project-bolt-sb1-mz1jluga/project/src/components/RepairForm.tsx:211-220 | When the form is acceptable, the uploads succeed and the store returns a row whose id is non-empty, the confirmation call is made. It carries every field the function requires, with the tier's own turnaround. |
| RepairForm.JaneDoeScenario | project-bolt-sb1-mz1jluga/project/src/components/RepairForm.tsx:138-234 | Jane Doe / iphone-15 / high with no media: no uploads and no alert. The record sent is pending with null URLs, id and timestamp. The stored row is delivered as returned, the confirmation call carries its id and asks for "24-48 hours". |
| VoiceRecorder.ReleaseStream | project-bolt-sb1-mz1jluga/project/src/components/VoiceRecorder.tsx:95-98 | Tracks are stopped exactly for the held stream, at most once. Afterwards no stream is held, and nothing else changes. |
| VoiceRecorder.ReleaseStreamIdempotent | project-bolt-sb1-mz1jluga/project/src/components/VoiceRecorder.tsx:63-66 | Releasing again after a release stops nothing. |
| VoiceRecorder.CleanupEffects | project-bolt-sb1-mz1jluga/project/src/components/VoiceRecorder.tsx:26-39 | The effect cleanup clears exactly the current timer, revokes exactly the captured URL, and stops exactly the current stream. |
| VoiceRecorder.AfterUrlChange | project-bolt-sb1-mz1jluga/project/src/components/VoiceRecorder.tsx:26-39 | A handler that keeps the URL triggers nothing. One that changes it revokes the previous URL (unless it is kept), clears the current timer and stops the current stream, and makes no other call. |
| VoiceRecorder.Start | project-bolt-sb1-mz1jluga/project/src/components/VoiceRecorder.tsx:41-80 | A refused microphone leaves the state unchanged and only alerts. A successful start empties the chunks, sets recording, resets time to 0, installs recorder and timer, and starts both. |
| VoiceRecorder.DataAvailable | project-bolt-sb1-mz1jluga/project/src/components/VoiceRecorder.tsx:50-54 | A chunk is appended exactly when it holds data. Nothing else changes. |
| VoiceRecorder.Stop | project-bolt-sb1-mz1jluga/project/src/components/VoiceRecorder.tsx:83-100 | Without a recorder, or when not recording, nothing happens. Otherwise the recorder is stopped first, the held timer is cleared and the held stream released, each exactly once, and recording is false. Nothing else in the state changes. |
| VoiceRecorder.OnStop | project-bolt-sb1-mz1jluga/project/src/components/VoiceRecorder.tsx:56-66 | One `audio/webm` blob of the concatenated chunks is turned into a URL and handed to the parent, once. Only the URL and the stream change. The held stream's tracks are stopped, and a previous different URL is revoked by the effect cleanup, which also clears the timer. No other call is made, and the new URL is never revoked. |
| VoiceRecorder.Tick | project-bolt-sb1-mz1jluga/project/src/components/VoiceRecorder.tsx:74-76 | Each tick of a running timer adds exactly one second. Nothing else changes. |
| VoiceRecorder.Play | project-bolt-sb1-mz1jluga/project/src/components/VoiceRecorder.tsx:102-107 | Only `isPlaying` can change. Audio is played exactly when there is a URL (the audio element exists), and then playback is on. No other call is made. |
| VoiceRecorder.Pause | project-bolt-sb1-mz1jluga/project/src/components/VoiceRecorder.tsx:109-114 | Only `isPlaying` can change. Audio is paused exactly when there is a URL, and then playback is off. No other call is made. |
| VoiceRecorder.Ended | project-bolt-sb1-mz1jluga/project/src/components/VoiceRecorder.tsx:216-221 | The end of playback turns playback off, changes nothing else and calls nothing. |
| VoiceRecorder.PauseUndoesPlay | project-bolt-sb1-mz1jluga/project/src/components/VoiceRecorder.tsx:102-114 | From a stopped player, play then pause restores the state, having played and paused the audio exactly when there is a URL. |
| VoiceRecorder.Delete | project-bolt-sb1-mz1jluga/project/src/components/VoiceRecorder.tsx:116-124 | Only the URL, the clock and playback change: the URL is cleared, time resets to 0 and playback stops. The parent is told exactly once. The current URL, if any, is revoked; when there was one, the effect cleanup also clears the running timer and stops the held stream. No other call is made. |
| VoiceRecorder.Unmount | project-bolt-sb1-mz1jluga/project/src/components/VoiceRecorder.tsx:26-39 | Unmounting changes no state. It clears exactly the running timer, revokes exactly the current URL and stops exactly the held stream: at most three calls, and no call of any other kind. |
| VoiceRecorder.UnmountAfterDelete | project-bolt-sb1-mz1jluga/project/src/components/VoiceRecorder.tsx:26-39 | After a delete, unmounting revokes no URL (the delete already did), but still clears exactly the running timer and stops exactly the held stream. |
| VoiceRecorder.Apply | project-bolt-sb1-mz1jluga/project/src/components/VoiceRecorder.tsx:15-124 | Every handler keeps the widget consistent: the timer handle is held exactly while recording, recording has a recorder, and playing has a URL. |
| VoiceRecorder.RunConsistent | project-bolt-sb1-mz1jluga/project/src/components/VoiceRecorder.tsx:15-124 | Every state reached by any sequence of events from a consistent one is consistent. |
| VoiceRecorder.ArrivalsKeepNonEmpty | project-bolt-sb1-mz1jluga/project/src/components/VoiceRecorder.tsx:50-54 | After a run of chunk arrivals, the chunk list is the old list plus the arrivals that held data, in arrival order. |
| VoiceRecorder.NonEmptyKeepsBytes | project-bolt-sb1-mz1jluga/project/src/components/VoiceRecorder.tsx:51-57 | Dropping the empty chunks does not change the recorded bytes. |
| VoiceRecorder.SessionDeliversAllBytes | project-bolt-sb1-mz1jluga/project/src/components/VoiceRecorder.tsx:41-66 | From a start through any chunks to `onstop`, the blob handed to the parent is `audio/webm` and holds all the bytes received, in order. |
| VoiceRecorder.TicksCount | project-bolt-sb1-mz1jluga/project/src/components/VoiceRecorder.tsx:71-76 | After n ticks of a running timer, the clock has advanced by n. |
| VoiceRecorder.TwoDigitSeconds | project-bolt-sb1-mz1jluga/project/src/components/VoiceRecorder.tsx:128-129 | Seconds below sixty render as exactly two digits that read back as the number. |
| VoiceRecorder.FormatTime | project-bolt-sb1-mz1jluga/project/src/components/VoiceRecorder.tsx:126-130 | `m:ss` with a two-digit seconds field below 60 and minutes without a leading zero; minutes × 60 + seconds reads back as the input. |
| VoiceRecorder.FormatTimeExamples | project-bolt-sb1-mz1jluga/project/src/components/VoiceRecorder.tsx:126-130 | 0 renders "0:00", and 65 renders "1:05". |
| PhotoUpload.SelectFiles | project-bolt-sb1-mz1jluga/project/src/components/PhotoUpload.tsx:18-27 | Only the first file is considered. It is reported and previewed under the fresh URL exactly when its type starts with `image/`. Otherwise the preview is unchanged and nothing is called. Nothing is revoked. |
| PhotoUpload.RemovePhoto | project-bolt-sb1-mz1jluga/project/src/components/PhotoUpload.tsx:29-38 | Reports the removal first and exactly once. Revokes exactly the current preview, if any, and makes no other call. Leaves no preview and an empty input. |
| PhotoUpload.NonImageIgnored | project-bolt-sb1-mz1jluga/project/src/components/PhotoUpload.tsx:20 | A non-image first file leaves the preview as it was and calls nothing. |
| PhotoUpload.ReplacedPreviewNotRevoked | project-bolt-sb1-mz1jluga/project/src/components/PhotoUpload.tsx:24-25 | Selecting an image over a preview replaces it without revoking the old URL, and a later removal does not revoke it either. |
| PhotoUpload.SelectThenRemove | project-bolt-sb1-mz1jluga/project/src/components/PhotoUpload.tsx:18-38 | Selecting an image and then removing it returns to the initial picker, revoking that preview. |
| SuccessMessage.Summarize | project-bolt-sb1-mz1jluga/project/src/components/SuccessMessage.tsx:11-74 | Name and e-mail are echoed. The device is the matching model's label, or the raw value when none matches. Priority and turnaround come from the tier's row. The description section appears exactly for a non-empty description. |
| SuccessMessage.SummaryAgreesWithEmail | project-bolt-sb1-mz1jluga/project/src/components/SuccessMessage.tsx:55-64 | The page's priority label and turnaround equal the confirmation function's for the same tier. |
| SuccessMessage.HighUrgencyExample | project-bolt-sb1-mz1jluga/project/src/components/SuccessMessage.tsx:12-64 | An iPhone 15 at high urgency shows "iPhone 15", "High Priority" and "24-48 hours". |
| SuccessMessage.UnknownModelShownRaw | project-bolt-sb1-mz1jluga/project/src/components/SuccessMessage.tsx:12-38 | Any model value that no list entry carries is shown as stored. |
| SuccessMessage.SubmittedDescriptionShown | project-bolt-sb1-mz1jluga/project/src/components/SuccessMessage.tsx:69-74 | For a row the form stored, the description section appears exactly when a description was typed, and shows it. |
| SuccessMessage.EmailAndPageAgree | project-bolt-sb1-mz1jluga/project/src/components/SuccessMessage.tsx:55-64 | For a stored row with an id, whose form has name, e-mail and model filled in, the e-mail and the page show the same priority and turnaround. |
| App.Render | project-bolt-sb1-mz1jluga/project/src/App.tsx:49-99 | The form is shown exactly when no request is stored. Otherwise the summary shows exactly the stored request; never both. |
| App.HandleSubmitSuccess | project-bolt-sb1-mz1jluga/project/src/App.tsx:10-12 | After a success, the summary of exactly that request is shown. |
| App.HandleNewRequest | project-bolt-sb1-mz1jluga/project/src/App.tsx:14-16 | Starting over shows the form. |
| App.InitialShowsForm | project-bolt-sb1-mz1jluga/project/src/App.tsx:8 | The shell opens on the form. |
| App.NewRequestRestoresInitial | project-bolt-sb1-mz1jluga/project/src/App.tsx:10-16 | Success followed by "Submit Another Request" returns to the initial shell. |
| App.AfterSubmit | project-bolt-sb1-mz1jluga/project/src/App.tsx:95 | A delivered row moves the shell to that row's summary. Otherwise the shell is unchanged. |
| App.SubmissionDecidesView | project-bolt-sb1-mz1jluga/project/src/App.tsx:49-99 | From the form, the summary appears exactly when the submission delivered a row. An invalid form never leaves the form. |

## Left out

- Rendering (JSX markup, CSS classes, icons, the e-mail's HTML body) is not modelled. Only the values it interpolates are.
- The Supabase storage, insert and function calls, the Resend HTTP call, and `Deno.env` are oracle parameters, because they are external services.
- `Date.now()` and `Math.random().toString(36)` become the key seed parameters. Key uniqueness is not claimed, because the seeds are arbitrary inputs.
- An exception thrown by the storage client itself, rather than returned as `error`, is not modelled. Neither is the generic "There was an error submitting your request" message for non-`Error` throwables, which the code paths modelled never produce.
- `console.log`, `console.error` and `console.warn` calls are not modelled, because they have no effect on state.
- JSON parsing of the function's body is an input: the body arrives either parsed or as an unreadable-body error carrying the exception message. Non-string JSON field values are not modelled.
- CORS headers, the `from` and `reply_to` addresses, the `timestamp`, `success`, `message` and `note` fields of the function's responses, and the HTML body are left out, because they are constants or clock readings.
- JsStrings.ToLowerAscii: lower-cases ASCII letters only, because JavaScript's full Unicode case mapping is not modelled. Strings are sequences of code points, with no UTF-16 surrogate pairs.
- The photo size display (`size / 1024 / 1024` with `toFixed(2)`) is not modelled, because it is floating-point formatting.
- `mediaRecorder.start()` throwing after the recorder was created is not modelled. Only a refused microphone and a failing `MediaRecorder` constructor are.
- Concurrency is not modelled: overlapping submissions, and recorder events arriving between React re-renders. Each handler is one atomic step.
- RepairForm.InsertReply: the insert's answer is the whole stored row as the store returns it. Nothing forces that row to equal the record sent plus an id and timestamp (column defaults or triggers could change it), so that is stated as the `EchoesRecord` premise of `RepairForm.DeliveredRowEchoesForm` rather than assumed.
- The `hasRecording` prop only decides which recorder buttons are rendered, so it is left with the rendering.

## Findings

| source | as written | input that shows it | evidently intended | confidence | as-written member | corrected member |
|---|---|---|---|---|---|---|
| project-bolt-sb1-mz1jluga/project/supabase/functions/send-confirmation-email/index.ts:52-56 | The tier's details come from indexing a plain object literal with the request's `urgency`, then `\|\| medium`. Names inherited from `Object.prototype` are truthy, so the default is skipped and label, color and turnaround read as `undefined`. | `urgency: "toString"` (or "constructor", "valueOf", "hasOwnProperty", ...) with all other fields valid | Every name other than low/medium/high gets the medium details | not executed | ConfirmationEmail.RenderedDetailsAsWritten, exhibited by ConfirmationEmail.InheritedUrgencyRendersUndefined | ConfirmationEmail.UrgencyDetailsFor, related to the written lookup by ConfirmationEmail.CorrectedLookupAgrees |

The rest of the model, `ConfirmationEmail.Handle` and `ConfirmationEmail.Compose`, uses the corrected lookup.
