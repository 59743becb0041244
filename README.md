# Itzultzaile workflow logic, modelled in Dafny

Itzultzaile is a browser page. It takes a photo with the camera, filters and
crops it, runs OCR on it, and sends the recognised Basque text to the
Itzuli translation service. All of its code lives in `js/main.js`, inside
jQuery callbacks. This project lifts the decision logic out of those
callbacks and proves properties of it:

- **Translation job** (`TranslationJob`, `TranslationClient`). The translate
  button, the replies of `/key/get`, `/job/add`, `/job/<key>/status` and
  `/job/<key>/get`, and the firing of a scheduled poll are events. Each
  callback is a pure function from its reply to
  - the actions it performs, in order: requests sent, poll scheduled,
    result shown, error raised, alert;
  - and the job state it leaves (Idle, KeyRequested, KeyAcquired, Polling,
    Fetching, Done, Failed).

  `Step` and `Run` chain callbacks into traces. The class
  `TranslationClient.JobClient` holds the global `user_key_job` and the job
  state, and updates both in place, one method per callback.
- **Language-pair selector** (`Config`): turns a direction name into the
  model name, the host and the shared secret.
- **Rear-camera selection** (`RearCamera`): `searchForRearCamera` as
  filter, then map, then first id.
- **Frame-size settle loop** (`VideoSettle`): the `loadedmetadata` handler
  and its 100 ms interval. It is a loop over a sequence of camera readings
  that updates `pictureWidth`/`pictureHeight` and resolves the setup
  Deferred.
- **Step navigation** (`StepNavigation`): `changeStep`, the nav click
  handler and the buttons that call them. They form a class whose fields
  are the UI state: body step, active item, disabled items, video playing.

Inputs that stand for the outside world:
- camera readings and source lists;
- server replies and transport failures;
- the page text;
- the shared secret, which is a parameter rather than the literal in the code.

A scheduled poll is an action. The timer firing is a separate event. No
real time is modelled.

Apart from the points listed under "## Left out", the model follows
what each callback does, including safeguards it lacks:
- A second translate click is not rejected while a job runs. It starts
  another key request. No callback looks at any job state.
- Stale status or result replies are not discarded. Every reply is acted
  upon, and requests use whatever key the global holds at that moment.
- A transport failure ends the job with an error only for `/key/get`, which
  shows two alerts. The other three requests have no error callback, so
  their failure does nothing (`ReplyLost`).
- Polling has no timeout and no retry limit.

`throw_error`, called on every error the server reports, is not defined in `js/main.js`.
The action `ShowError` stands for that call. The call is the last statement
of each of its branches, so whatever it does cannot skip other effects.

## Model

| member | source | states |
|---|---|---|
| Config.SelectConfig | js/main.js:265-278 | only the exact name "es2eu" selects the Spanish-to-Basque model and host; every other name selects the Basque-to-Spanish ones; the shared secret is the same in both branches |
| Config.SelectorConsistent | js/main.js:265-278 | the selector never pairs a host with the other direction's model, and the hard-coded "eu2es" gives generic_eu2es on eues.itzuli.euskadi.eus |
| TranslationJob.OnKeySuccess | js/main.js:395-404 | a /key/get reply moves the job to KeyAcquired and sends exactly one request: /job/add to the selected host with the shared secret, the returned ukey, the page text and the selected model; no poll and no error |
| TranslationJob.OnKeyError | js/main.js:423-426 | a failed /key/get alerts "some error", then the thrown error, and ends the job Failed; no request, poll or error call follows |
| TranslationJob.OnJobAddReply | js/main.js:414-419 | a /job/add reply with status "error" fails with the error action alone; any other reply schedules exactly one first poll and nothing else |
| TranslationJob.OnStatusReply | js/main.js:291-320 | status "error" fails with the error action whatever the message; otherwise "waiting"/"processing" schedules exactly one poll and nothing else; "processed" sends exactly one result request, with the current key; "failed" raises the error; any other message does nothing; a poll is scheduled iff the status is not "error" and the message is waiting/processing |
| TranslationJob.OnResultReply | js/main.js:352-359 | numeric status 4 raises the error, status 3 shows `message` as the result and ends Done(message), any other status has no effect; no poll is ever scheduled |
| TranslationJob.Step | js/main.js:263-429 | only a key reply changes the job key (to the returned ukey); every job submission, status request and result request a callback sends carries the job key as it stands after that callback |
| TranslationJob.Run | js/main.js:263-429 | after any sequence of callbacks the global key is the ukey of the last key reply among them, or the starting key if there was none |
| TranslationJob.StepArmsPoll | js/main.js:305-308 | each callback schedules exactly one poll if it is a non-error /job/add reply or a non-error waiting/processing status reply, and none otherwise |
| TranslationJob.RequestsUseCurrentKey | js/main.js:283-344 | over any run without a key reply, the global key is unchanged and every request naming a job uses it |
| TranslationJob.KeyReplyFixesJobKey | js/main.js:395-404 | after /key/get returns `ukey`, the job submitted and every later status and result request use `ukey`, until another key reply overwrites it |
| TranslationJob.PollsMatchCauses | js/main.js:305-319 | over any run, the number of polls scheduled equals the number of poll-causing replies, so a reply that is not a non-error waiting/processing status (or a non-error /job/add reply) schedules no further poll |
| TranslationJob.PollingToDone | js/main.js:291-358 | from a scheduled poll, the replies waiting, processing, processed and then result status 3 give exactly three status requests, two re-polls, one result request, the result shown, and Done |
| TranslationJob.SubmitToPolling | js/main.js:384-419 | from the start, a click, a key reply and a non-error /job/add reply alert the text, request a key, submit the job under the returned key, schedule the first poll, and leave the job Polling with that key |
| TranslationJob.SuccessfulJob | js/main.js:367-429 | translating "kaixo" with key "fD6JZAFQvU" through waiting, processing, processed and result (3, "hello") sends exactly the expected requests, shows "hello", and ends Done("hello") with that key |
| TranslationJob.FailedJob | js/main.js:316-319 | a status reply with message "failed", whatever its status field, raises the error and nothing else, arms no poll and leaves the job Failed with the key unchanged |
| TranslationClient.JobClient.constructor | js/main.js:10 | the global job key starts empty and no job exists; the configuration is the selector applied to the hard-coded direction |
| TranslationClient.JobClient.Translate | js/main.js:443-451 | the translate button alerts the text and sends /key/get with the shared secret to the selected host |
| TranslationClient.JobClient.OnKeyReceived | js/main.js:395-404 | the global key is overwritten with the returned ukey, and the job is sent under that key with the page text and the selected model |
| TranslationClient.JobClient.OnKeyRequestFailed | js/main.js:423-426 | a failed /key/get shows "some error" and then the thrown error, and the flow stops |
| TranslationClient.JobClient.OnJobAdded | js/main.js:414-420 | the key is unchanged, and state and actions are the /job/add dispatch |
| TranslationClient.JobClient.PollStatus | js/main.js:283-290 | a scheduled status poll asks for the job that the global key names at the moment it fires |
| TranslationClient.JobClient.OnStatus | js/main.js:291-321 | the key is unchanged, and state and actions are the status dispatch using the current key |
| TranslationClient.JobClient.OnResult | js/main.js:352-359 | the key is unchanged, and state and actions are the result dispatch |
| RearCamera.RearSources | js/main.js:43-45 | the filter keeps every video source facing the environment and nothing else, and never lengthens the list |
| RearCamera.RearSourcesConcat | js/main.js:43-45 | the filter keeps source order: filtering a concatenation gives the filtered parts, concatenated |
| RearCamera.Ids | js/main.js:45-47 | the map yields each kept source's id, in order |
| RearCamera.RearSourcesHead | js/main.js:43-53 | the filtered list is empty iff no source is a rear camera, and otherwise starts with the first rear camera in source order |
| RearCamera.SearchForRearCamera | js/main.js:37-60 | when `MediaStreamTrack` is falsy or has no `getSources` the result is null; with it, the result is the id of the first video source facing the environment, and null iff there is none |
| VideoSettle.FirstSettled | js/main.js:99-107 | finds the first tick whose width and height are both non-zero, none being earlier; None iff no tick has both |
| VideoSettle.VideoSetup.constructor | js/main.js:4-5 | the picture size starts at 640 x 360 and the setup Deferred is pending |
| VideoSettle.VideoSetup.Resolve | js/main.js:105-109 | a resolve call is counted and settles a pending Deferred; a settled one stays as it is; the picture size is untouched |
| VideoSettle.VideoSetup.OnStreamFailed | js/main.js:112-114 | a refused stream rejects a pending Deferred with the camera-access message |
| VideoSettle.VideoSetup.OnLoadedMetadata | js/main.js:92-111 | a first reading with at least one non-zero dimension is stored and resolves at once, without polling. Otherwise resolve is called exactly once, at the first tick with both dimensions non-zero; the stored size is that tick's reading and no later tick is examined. With no such tick it never resolves and the size stays as first read |
| VideoSettle.LateSizeScenario | js/main.js:97-107 | a stream that reports 0 x 0, then three 0 x 0 ticks, then 640 x 360 resolves exactly once, with 640 x 360, after four ticks |
| StepNavigation.Navigation.constructor | js/main.js:224-234 | the page's initial body step, active item, disabled items and playing flag are taken as given; the classes may sit only on items, and no other condition is imposed on the markup |
| StepNavigation.Navigation.ChangeStep | js/main.js:224-234 | the video plays iff the step is 1; the body shows the step; the item of the step becomes the only active one and loses `disabled`; no other item's disabled flag changes; at most one active item, never a disabled one |
| StepNavigation.Navigation.NavClick | js/main.js:453-460 | a click on a disabled item changes nothing; on an enabled item it is changeStep of the link's data-step, which leaves at most one active item and none of them disabled |
| StepNavigation.Navigation.ToAdjust | js/main.js:258-261 | taking a picture (and going back) moves to step 2 with the video paused, item 2 (when the page has it) the only active item and enabled |
| StepNavigation.Navigation.ToRecognize | js/main.js:430-433 | the adjust button moves to step 3 with the video paused, item 3 (when the page has it) the only active item and enabled |
| StepNavigation.Navigation.StartOver | js/main.js:439-441 | starting over returns to step 1, makes item 1 (when the page has it) the only active item and plays the video again |

## Left out

- `checkRequirements`: its outcome depends on the Deferred's settle-once
  behaviour when it is rejected and then resolved, and on Modernizr and
  glfx.js probes.
- The step1 promise chain (`checkRequirements`, then `searchForRearCamera`,
  then `setupVideo`): jQuery promise plumbing. Each link is modelled on its own.
- `js/main.js` does not parse as written. The `};` at js/main.js:78 is one
  brace too many and closes `setupVideo` early; the file has one more `}`
  than `{`, so as written none of its callbacks can run. Each callback is
  modelled as if that brace were absent.
- An undeclared `MediaStreamTrack` global: the test at js/main.js:41 then
  throws a ReferenceError instead of resolving null. The model's `None`
  input stands only for a falsy `MediaStreamTrack` or a missing `getSources`.
- The `videoSettings` constraint literal. It is malformed as written, and
  the camera constraints belong to the device boundary. So the model does not
  capture that `if (rearCameraId)` treats an empty-string id as no camera.
- `getUserMedia`, `MediaStreamTrack` and the video element: device boundary.
  Readings and source lists are inputs.
- The settle interval over an endless stream of ticks: the model takes a
  finite sequence of readings. If no reading has both dimensions, the model
  stays unresolved after the last one.
- The glfx.js filter chain, the brightness/contrast sliders (floating
  point), Jcrop and the crop scale computation (a foreign widget plus
  floating-point division), and Tesseract OCR (a foreign engine).
- DOM updates, popovers, the spinner and `showError`: presentation only.
  Alerts and the error call appear only as abstract actions.
- AJAX transport, the CORS relay URLs and `setTimeout` timing. They are
  replaced by request values and a poll-scheduled action.
- JavaScript's loose `==` on reply fields. The model types `status` as a
  string (or an integer for the result reply) and `message` as a string.
  A coerced match such as `"3" == 3` is not modelled, and a missing field
  behaves like any other non-matching value. A missing `ukey` (undefined)
  is not modelled either: the model treats the key as a string.
- The literal shared secret of the code: it is a parameter of the selector.
- StepNavigation.Navigation.ChangeStep: does not model jQuery's negative `:eq` index; a
  step outside 1 .. itemCount names no item.
- The initial markup of the navigation (body class, active and disabled
  items) and whether the video starts playing are not part of this model:
  they are constructor parameters.
- `Navigation.NavClick` takes the clicked item and its `data-step` as two
  inputs, because the markup that pairs them is not part of this model.
