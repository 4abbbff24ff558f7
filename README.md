# resumax-frontend core, modelled in Dafny

This project models the core of the resumax frontend in Dafny and proves properties of the model. The frontend is a Next.js client that keeps a user's resume data on a backend service. The modelled core has four parts.

- **`apiService`.** It turns each backend operation into an HTTP request and turns each response into a result or a thrown error. The model covers:
  - the endpoint, method and body of each operation;
  - the merge of the JSON content-type header with the caller's headers;
  - the base URL followed by the endpoint;
  - the error-message rule;
  - the skills search, which joins the skills with commas and then percent-encodes them;
  - the multipart resume upload.
- **The `useUser` hook.** It holds the backend record of the signed-in user, a loading flag and the last error. The model covers:
  - the bootstrap, which fetches the record or creates it when the backend reports "User not found";
  - the seven operations that change the record on the server and adopt the server's reply.
- **The application-agent page.** The model covers its input guards, its processing state and its start button's disabled condition.
- **The two upload pages.**
  - The resume page validates the file, keeps a six-field form and resets it after a simulated save.
  - The home page validates the file, uploads it to the `resumes` storage bucket and reports the result.

What the model abstracts:
- **The network and the storage service.** The reply a request gets is a parameter of the method that receives it, and any reply is possible. Each client keeps a log of the requests it has issued. A statement that no request is made is therefore a statement about that log.
- **Configuration.** The `NEXT_PUBLIC_API_URL` setting is the `setting` parameter of the service's constructor. The identity provider's state is a `ClerkSession` or `ClerkUser` parameter.
- **The pages' awaits and `setTimeout` callbacks.** Each is a second method, named `...Settled` or `...Fires`. It can run once for every start the page has made, and a counter of starts not yet completed enforces this.

| file | module | models |
|---|---|---|
| wrappers.dfy | Wrappers | `Option` |
| text.dfy | Text | JavaScript string truthiness and `\|\|`. It also models `includes`, `trim`, `join` with a matching `split`, and integers printed in decimal |
| uri.dfy | Uri | `encodeURIComponent` as ECMAScript's Encode operation: UTF-8, then `%XX` for every byte of a character outside the unreserved set. A percent-decoder is its partner |
| model.dfy | Model | the `User`, `Project` and `WorkExperience` records, the shapes callers pass in, the identity, and the browser `File` |
| api.dfy | Api | the service's requests, responses and the `ApiService` class |
| user_hook.dfy | UserHook | the `useUser` hook as the `UserSession` class |
| application_agent_page.dfy | ApplicationAgentPage | the application-agent page |
| upload_resume_page.dfy | UploadResumePage | the resume-upload page |
| home_page.dfy | HomePage | the home page's PDF upload |

## Model

| member | source | states |
|---|---|---|
| Api.BaseUrl | src/services/api.ts:1 | A set, non-empty setting is the base URL. An unset or empty setting gives `http://localhost:5001/api`. The base is never empty |
| Api.RequestUrl | src/services/api.ts:58 | The URL is the base followed by the endpoint, with nothing in between. Both can be read back from it |
| Api.Config | src/services/api.ts:59-65 | Method and body are passed through. Without caller headers, the headers are exactly the JSON content type. With caller headers, the caller's headers replace the merged object, because `...options` is spread last |
| Api.ConfigJson | src/services/api.ts:59-65 | The sent configuration carries `Content-Type: application/json` iff the caller gave no headers or gave that same entry |
| Api.EffectiveMethod | src/services/api.ts:68 | The method `fetch` uses: the configured one, or GET when none is named |
| Api.Endpoint | src/services/api.ts:83-186 | The path of each operation relative to the base URL, with ids inserted as they are and only the company and the skills encoded. `CompanySegment` and `SkillsQueryRoundTrip` state what is proved about it |
| Api.RouteMethod | src/services/api.ts:83-186 | The method each operation's route uses. `RequestMethodAndHeaders` proves the built requests agree with it |
| Api.RequestFor | src/services/api.ts:58-68 | The request issued for an operation: the URL of its endpoint and the configuration of its options. `RequestMethodAndHeaders` and `RequestBody` state its method, headers and body |
| Api.Options | src/services/api.ts:83-186 | No operation passes headers. An operation sends a body iff its method is POST or PUT |
| Api.RequestMethodAndHeaders | src/services/api.ts:83-186 | Every operation's request uses its route's method, with GET when none is named. Every request carries exactly the JSON content-type header |
| Api.RequestBody | src/services/api.ts:87-182 | A request carries a body iff its route is POST or PUT. Each of the seven bodies is the caller's data: the new user, the user patch, the new project, the project patch, the new experience, the experience patch, and the identity with the job URL |
| Api.SkillsParam | src/services/api.ts:144-146 | The skills query value holds only unreserved characters and `%` |
| Api.SkillsQueryRoundTrip | src/services/api.ts:144-147 | The endpoint is `/users/search/skills?skills=` plus the value. The value holds no `&`, `#` or `+`. Percent-decoding the value gives back the comma-joined list, and splitting that at commas gives back the skills (a non-empty list of skills without commas) |
| Api.CompanySegment | src/services/api.ts:149-151 | The encoded company is one path segment. It contains no `/`, `?` or `#` |
| Api.ErrorMessage | src/services/api.ts:70-72 | The message is never empty. It is the body's `message` when that is a non-empty string, otherwise `HTTP error! status: ` followed by the status. An unparseable body counts as having no message |
| Api.ErrorMessageStatus | src/services/api.ts:72 | A status-line message is the prefix followed only by digits, and parsing those digits gives back the status |
| Api.IsOk | src/services/api.ts:70 | `response.ok`: the status lies in 200-299 |
| Api.Outcome | src/services/api.ts:67-79 | Success iff the response is ok (200-299) and its body parses, and then the value is the body unchanged. A non-ok response fails with `ErrorMessage`. An ok response whose body does not parse fails with the parse error's own message. A failed fetch is rethrown with its own message |
| Api.FormData.constructor | src/services/api.ts:155 | `new FormData()`: no fields yet |
| Api.FormData.Append | src/services/api.ts:155-157 | The field is appended after the existing ones |
| Api.UploadFields | src/services/api.ts:155-157 | The form has exactly two fields, in order: the file under `resume`, then the id under `clerkUserId` |
| Api.ApiService.constructor | src/services/api.ts:1 | The base URL comes from the setting, and the request log starts empty |
| Api.ApiService.Dispatch | src/services/api.ts:58-68 | Appends exactly one request, built from `RequestUrl` and `Config`, to the log |
| Api.ApiService.Request | src/services/api.ts:54-80 | Issues exactly that one request, and the result is `Outcome` of the reply |
| Api.ApiService.Call | src/services/api.ts:83-186 | Issues exactly the request the table gives for the operation, and settles by `Outcome` |
| Api.ApiService.UploadResume | src/services/api.ts:154-170 | Posts the two-field form to `<base>/resume/upload` with no headers, never the JSON type, and settles by the same rule as `request` |
| Model.PdfProblem | src/app/upload-resume/page.tsx:20-28 | No problem iff a file is selected and its type is `application/pdf`. A missing file gives the select-a-file message. Any other type gives the only-PDF message; the missing file is checked first |
| UserHook.HasRemoteId | src/hooks/useUser.ts:80 | The negation of the `!user?._id` guard, used at lines 80, 94, 108, 123, 137 and 151: a local record whose id is present and non-empty; an empty id counts as absent |
| UserHook.Committed | src/hooks/useUser.ts:67-75 | The state one record-changing call leaves, as in the try/catch blocks at lines 67-75, 82-90, 96-104, 110-118, 125-133, 139-147 and 153-161. On success the record is the server's, the error is cleared and the call resolves to the record. On failure the record is kept, the error is the message and the call rejects with it |
| UserHook.Bootstrapped | src/hooks/useUser.ts:26-57 | The requests, record and error the bootstrap leaves once past its guard. A successful fetch means one request and the fetched record. A failure mentioning `User not found` means the fetch and then the creation of `SeedUser`, with the created record or the creation's error. Any other failure means one request, the record kept and the error set |
| UserHook.SeedUser | src/hooks/useUser.ts:41-45 | The created record belongs to the identity. Its name is the full name, else the first name, else `User`, and is never empty. Its email is the primary address or empty |
| UserHook.UserSession.constructor | src/hooks/useUser.ts:7-9 | No record, loading, no error |
| UserHook.UserSession.FetchOrCreateUser | src/hooks/useUser.ts:12-61 | Loading ends on every path. Before the identity loads, or with no one signed in, nothing is sent and nothing else changes. Otherwise the requests are one fetch, plus one creation of `SeedUser` exactly when the fetch failed with a message containing `User not found`. The record is the fetched or created one, and any other failure becomes the error with the record kept |
| UserHook.UserSession.Mutate | src/hooks/useUser.ts:67-75 | Exactly one request is sent. On success the record becomes the server's, the error is cleared and the promise resolves to the record. On failure the record is kept, the error is the message and the promise rejects with it |
| UserHook.UserSession.UpdateUser | src/hooks/useUser.ts:64-76 | Without an identity or a local record it resolves to undefined and nothing changes. Otherwise it sends the update under the identity's id and commits the outcome |
| UserHook.UserSession.AddProject | src/hooks/useUser.ts:79-91 | Without a record id nothing changes and it resolves to undefined. Otherwise it posts the project under the record's id and commits the outcome |
| UserHook.UserSession.UpdateProject | src/hooks/useUser.ts:93-105 | The same guard. Otherwise it puts the patch at the project's route under the record's id and commits the outcome |
| UserHook.UserSession.DeleteProject | src/hooks/useUser.ts:107-119 | The same guard. Otherwise it deletes at the project's route and commits the outcome |
| UserHook.UserSession.AddWorkExperience | src/hooks/useUser.ts:122-134 | The same guard. Otherwise it posts the experience and commits the outcome |
| UserHook.UserSession.UpdateWorkExperience | src/hooks/useUser.ts:136-148 | The same guard. Otherwise it puts the patch at the experience's route and commits the outcome |
| UserHook.UserSession.DeleteWorkExperience | src/hooks/useUser.ts:150-162 | The same guard. Otherwise it deletes at the experience's route and commits the outcome |
| UserHook.FetchedUserIsKept | src/hooks/useUser.ts:32-34 | A fetch that succeeds means one request, the fetched record and no error |
| UserHook.CreatesOnlyWhenNotFound | src/hooks/useUser.ts:35-54 | Two requests iff the fetch failed with `User not found` in its message. The second request creates the identity's own record. No error implies a record |
| UserHook.NotFoundMessageCreates | src/hooks/useUser.ts:38-45 | A fetch failure whose message embeds `User not found` anywhere leads to exactly the fetch followed by the creation of the identity's record |
| ApplicationAgentPage.StartDisabled | src/app/application-agent/page.tsx:147 | The start button's `disabled`: processing, or a URL that trims to empty. `StartDisabledIffBlank` states what it means |
| ApplicationAgentPage.ApplicationAgent.StartButtonDisabled | src/app/application-agent/page.tsx:147 | `StartDisabled` of the page's current state. The handlers' contracts state how they change it |
| ApplicationAgentPage.StartDisabledIffBlank | src/app/application-agent/page.tsx:147 | The start button is disabled iff a request is running or the URL is only white space |
| ApplicationAgentPage.FailureText | src/app/application-agent/page.tsx:45 | The shown error is never empty. It is the error's message when there is one, otherwise `Failed to automate application` |
| ApplicationAgentPage.HttpErrorShownVerbatim | src/app/application-agent/page.tsx:45 | A non-ok response is shown with the service's own error message, and the fallback never replaces it |
| ApplicationAgentPage.ApplicationAgent.constructor | src/app/application-agent/page.tsx:11-14 | Empty URL, not processing, no result, no error |
| ApplicationAgentPage.ApplicationAgent.SetJobUrl | src/app/application-agent/page.tsx:130 | Only the URL changes. The button is then disabled iff the page is processing or the new URL is only white space |
| ApplicationAgentPage.ApplicationAgent.HandleAutomateApplication | src/app/application-agent/page.tsx:20-37 | A blank URL is reported first, then a missing sign-in, and neither sends anything or changes anything else. Otherwise processing starts with the result and error cleared, and one automation request goes out with the identity's id and the untrimmed URL. The button is disabled after a blank URL and after an accepted start |
| ApplicationAgentPage.ApplicationAgent.AutomationSettled | src/app/application-agent/page.tsx:37-48 | Processing ends. Success sets the result to the response. Failure sets the error to the message or the fallback, and keeps the result. The button is then disabled iff the URL is only white space |
| UploadResumePage.EmptyForm | src/app/upload-resume/page.tsx:9-16 | Exactly the six fields, all empty |
| UploadResumePage.InputChanged | src/app/upload-resume/page.tsx:40-46 | The named field holds the new value and every other field keeps its own. The keys are the old keys plus the name |
| UploadResumePage.InputChangedKeepsFields | src/app/upload-resume/page.tsx:40-46 | Editing a declared field keeps exactly the six fields |
| UploadResumePage.UploadResume.constructor | src/app/upload-resume/page.tsx:6-16 | No file, not uploading, no message, the empty form |
| UploadResumePage.UploadResume.SelectFile | src/app/upload-resume/page.tsx:20 | Only the selected file changes |
| UploadResumePage.UploadResume.HandleFileUpload | src/app/upload-resume/page.tsx:19-32 | A rejected file sets only the message, to `PdfProblem`'s message. An accepted one sets uploading, clears the message and starts one timer. The file and form are untouched |
| UploadResumePage.UploadResume.FileTimerFires | src/app/upload-resume/page.tsx:34-37 | Uploading ends and the uploaded message is shown. Nothing else changes |
| UploadResumePage.UploadResume.HandleInputChange | src/app/upload-resume/page.tsx:40-46 | The form becomes `InputChanged` of the old form. Nothing else changes |
| UploadResumePage.UploadResume.HandleFormSubmit | src/app/upload-resume/page.tsx:48-53 | Uploading starts, the message is cleared and one timer starts. The form is kept |
| UploadResumePage.UploadResume.SubmitTimerFires | src/app/upload-resume/page.tsx:54-69 | Uploading ends with the saved message. The form is the empty form and the file input is cleared |
| HomePage.ObjectKey | src/app/page.tsx:22 | The key is `public/` followed by the file name, which can be read back |
| HomePage.ObjectKeyInjective | src/app/page.tsx:22 | Files with different names never get the same key |
| HomePage.UploadMessage | src/app/page.tsx:27-31 | The message is `Upload successful!` iff there is no error. Otherwise it is `Upload failed: ` followed by the error's message, which can be read back |
| HomePage.Storage.Upload | src/app/page.tsx:22-25 | The upload is appended to the storage log |
| HomePage.Home.constructor | src/app/page.tsx:6-8 | No file, not uploading, no message |
| HomePage.Home.SelectFile | src/app/page.tsx:11 | Only the selected file changes |
| HomePage.Home.HandleUpload | src/app/page.tsx:10-25 | A rejected file sets only the message, and nothing is uploaded. An accepted one sets uploading, clears the message and asks storage for exactly one upload: to `resumes`, under `ObjectKey`, with cache control `3600` and no overwriting |
| HomePage.Home.UploadSettled | src/app/page.tsx:26-31 | Uploading ends and the message is `UploadMessage` of the result |
| Text.Truthy | src/services/api.ts:1 | JavaScript truthiness of a string that may be null or undefined: present and non-empty. Used at api.ts:72, useUser.ts:43-44 and application-agent/page.tsx:45 as well |
| Text.OrElse | src/services/api.ts:72 | `s \|\| fallback` on strings: the string when it is truthy, otherwise the fallback. Also at api.ts:1, useUser.ts:43-44 and application-agent/page.tsx:45 |
| Text.Includes | src/hooks/useUser.ts:38 | `String.prototype.includes`: a scan for the substring. `IncludesIffOccurs` states what it means |
| Text.IncludesInfix | src/hooks/useUser.ts:38 | A string embedded anywhere in another is included in it |
| Text.IncludesIffOccurs | src/hooks/useUser.ts:38 | `includes` holds iff the substring occurs at some index |
| Text.TrimEmptyIffBlank | src/app/application-agent/page.tsx:21 | A string trims to empty iff every character is white space |
| Text.Trim | src/app/application-agent/page.tsx:21 | `String.prototype.trim`: leading and trailing white space and line terminators removed. `TrimEmptyIffBlank` states when it is empty |
| Text.Join | src/services/api.ts:145 | `Array.prototype.join` with a one-character separator |
| Text.Split | src/services/api.ts:145 | The receiver's split at a separator, the partner of `Join`. It always gives at least one part |
| Text.SplitJoin | src/services/api.ts:145 | Splitting a comma-join at commas gives back the list, when no element contains a comma |
| Text.NatToString | src/services/api.ts:72 | The decimal form of the status in the template string |
| Text.NatToStringRoundTrip | src/services/api.ts:72 | The decimal form of a status is all digits and parses back to the status |
| Uri.EncodeURIComponent | src/services/api.ts:146 | The encoding holds only unreserved characters and `%` |
| Uri.Decode | src/services/api.ts:146 | A percent-decoder for UTF-8 `%XX` sequences, the partner of `EncodeURIComponent`. It fails on malformed input |
| Uri.DecodeEncode | src/services/api.ts:146 | Percent-decoding the encoding of any string gives back that string |

## Left out

- **Not in the core.** The resume-extraction merge is not part of this model, and neither is any code outside the named files. This includes the ClerkTest, ApiTest, SimpleTest, UserProfile and AutoUserCreation components, and the routing behind the pages' back buttons.
- **Views and logging.** JSX rendering, styling and `console` logging are not modelled. So are the inputs' own `disabled` attributes, other than the application-agent start button's.
- **Concurrency and timing.** Interleavings of React state updates, stale closures, effect re-runs and timer delays are not modelled. The 2000 ms and 1500 ms delays are not modelled; only the order of start and callback is.
- **Transport.** `fetch`, the Supabase client and `JSON.stringify` are not modelled. A body is the record it would serialise, and a reply is a parameter. HTTP response headers are not modelled.
- **Numbers.** `gpa` is a `real`; its formatting and `parseFloat` are not modelled.
- **Headers set to undefined.** A caller's `headers: undefined` key, which would spread over the merged headers, is not distinguished from an absent key. No caller in the core passes one.
- **Api.ErrorMessage.** A `message` property that is present but not a string is not modelled. Neither is a response body that is the JSON literal `null`. For a response that is not ok, the source reads `message` of `null` and rethrows the resulting TypeError. For an ok response it resolves to `null`. A `Json` value always holds a result and an optional message, so the model can write such a reply only as one without a message, and it gives the status-line message instead.
- **Uri.EncodeURIComponent.** Characters are Dafny `char`s, which may be any scalar value, so the lone surrogates on which JavaScript's `encodeURIComponent` throws have no counterpart.
- **Api.Endpoint.** Identifiers are inserted into paths unencoded, as in the source. The model proves nothing about how such an id splits into path segments; only the encoded company and skills values are proved to stay in their place.
- **Api.SkillsQueryRoundTrip.** The round trip is stated only for a non-empty list whose skills contain no comma. The source sends other lists too, but the receiver cannot recover them.
- **HomePage.Home.HandleUpload.** A storage call that throws instead of returning `{ error }` is not modelled. In the source it would leave `uploading` set, since there is no `try`.
- **UserHook.UserSession.FetchOrCreateUser.** When no one is signed in, the record is left as it was, as in the source; it is not cleared. The effect's dependency tracking, which decides when it runs, is a matter for the caller.
- **Model.NewUser.** The created record has only the three fields the hook sends, not the full `User` shape minus its server fields.
