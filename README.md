# Head-up-rate monitoring client, modelled in Dafny

The client is a Next.js web app. A teacher signs in and then does one of two things:

- streams the camera to an inference service over a WebSocket and watches the live "head-up rate" (the share of students looking up);
- or uploads one picture and reads the detections.

This project models the client's logic in Dafny and proves its properties:

- **Sign-in page.** The three password rules as the regular expression engine runs them, and the e-mail pattern.
- **Login, registration and reset.** Their ordered checks and their effects on `localStorage`.
- **Password-change hand-off.** The profile page sets a mark in `localStorage`; the sign-in page consumes it exactly once.
- **Shared HTTP client.** Bearer token, form encoding, unwrapping of `{code: 200}` bodies, the alert text chosen for a failure, and 401 handling.
- **Live-stream page.** The socket, the capture interval, its id kept in session storage, and the display.
- **Single-picture page.** Its state and the mapping of detections.
- **Menu bar and profile page.** The name and address they derive from `localStorage`.

## Structure

| file | module | models |
|---|---|---|
| `js.dfy` | `Js` | parsed JSON values, truthiness, property reads (`JSON.parse` keeps the last duplicate key) |
| `text.dfy` | `Text` | string operations: `\s`, line terminators, `toLowerCase`/`toUpperCase` (ASCII), `n.toString()`, `parseInt`, `includes`, `split(sep)[0]`, UTF-16 `length` |
| `storage.dfy` | `BrowserStorage` | `localStorage` as a class over a `map` |
| `identity.dfy` | `Identity` | the displayed name: user name, else the e-mail prefix |
| `videos.dfy` | `Videos` | `src/app/videos/page.tsx` as class `StreamPage` |
| `auth.dfy` | `Auth` | `src/app/auth/page.tsx`: rules, e-mail pattern, checks, class `AuthPage` |
| `http.dfy` | `Http` | `src/app/server/utils/axios/index.tsx`: the interceptors |
| `picture.dfy` | `Picture` | `src/app/picture/page.tsx` as class `PicturePage` |
| `topmenus.dfy` | `Menu` | `src/components/topmenus.tsx` as class `TopMenu` |
| `profile.dfy` | `Profile` | `src/app/dashboard/profile/page.tsx` as class `ProfilePage`, and the hand-off |

### How the code is modelled

- Each React component becomes a class. Each `useState` variable and `useRef` slot becomes a field of that class. Each handler becomes a method whose `ensures` states the whole new state.
- Browser events become method calls. Examples: a socket opening, a message arriving, a file reader calling back, a request resolving.
- What an event carries becomes a parameter:
  - the parsed message, or `None` when `JSON.parse` threw;
  - the value a request resolved with, or `None` when it rejected;
  - whether a blob was produced.
- Alerts and redirects are returned as values.
- `JSON.stringify(v)` and `String(v)` are opaque function parameters. The only assumption about `String(v)` is that a string converts to itself.

### Where the model follows the code over the description

- **rule2.** The rule is described as "contains an ASCII letter and an ASCII digit". The code tests `/^(?=.*[a-zA-Z])(?=.*\d)/`. There `.` does not cross a line terminator, so only characters before the first line break count. The model does the same, and `Auth.Rule2Meaning` states both readings: the exact one, and the described one for single-line passwords.
- **rule1.** `password.length` counts UTF-16 code units, so a character above U+FFFF counts twice.
- **The live-stream log line.** The code logs `visualization data received $data.visualization$` literally: the template has no braces, so nothing is interpolated. The model logs that text.

## Model

| member | source | states |
|---|---|---|
| Js.Member | src/app/videos/page.tsx:56-57 | a member read on a parsed object is `undefined` exactly when no member has the key, and is otherwise the value of the last member with that key |
| Text.NatToString | src/app/videos/page.tsx:133 | `id.toString()` is a non-empty run of decimal digits with no leading zero |
| Text.ParseIntOfDigits | src/app/videos/page.tsx:138-140 | `parseInt` of a non-empty digit string is the number the digits denote |
| Text.ParseIntRoundTrip | src/app/videos/page.tsx:133-140 | `parseInt(n.toString()) == n`: the interval id read back from session storage is the id stored |
| Text.DigitsValueOfNatToString | src/app/videos/page.tsx:133 | the digits of `n.toString()` denote `n` |
| Text.Contains | src/app/server/utils/axios/index.tsx:102 | `s.includes(sub)` holds iff `sub` occurs in `s` at some index |
| Text.SplitHead | src/components/topmenus.tsx:33 | `split(sep)[0]` is a prefix without `sep`, and is all of the string or is followed by `sep` |
| Text.Utf16Length | src/app/auth/page.tsx:46 | `length` lies between the number of characters and twice that, and equals it iff no character is above U+FFFF |
| Text.Utf16LengthOfChar | src/app/auth/page.tsx:46 | one character has `length` 1 below U+10000 and 2 above, so together with `Utf16LengthConcat` the value is fixed for every string |
| Text.Utf16LengthConcat | src/app/auth/page.tsx:46 | the `length` of a concatenation is the sum of the lengths |
| Text.TrimStart | src/app/videos/page.tsx:140 | the white space `parseInt` skips: every dropped character is white space, the rest does not start with white space, and nothing is dropped when the string does not start with white space |
| Text.ParseInt | src/app/videos/page.tsx:140 | `parseInt` gives NaN for a string without any digit; for a run of digits `ParseIntOfDigits` gives its value |
| Text.LeadingDigits | src/app/videos/page.tsx:140 | the digits `parseInt` reads: the longest prefix made of digits |
| Identity.EmailPrefix | src/components/topmenus.tsx:33 | the prefix before the first `@` contains no `@` and is all of the address or is followed by `@` |
| Identity.EmailPrefixOfAddress | src/components/topmenus.tsx:33 | for `local@domain` with no `@` in `local`, the name derived is `local` |
| Identity.DisplayName | src/components/topmenus.tsx:29-35 | a non-empty stored user name wins; else the prefix of a non-empty stored address; else the name shown before |
| Videos.ApplyMessage | src/app/videos/page.tsx:53-75 | the rate is replaced whenever `head_up_rate` is defined; image and error are replaced only by truthy values; a field changes only by those rules; a malformed message changes nothing |
| Videos.MessageLog | src/app/videos/page.tsx:61-73 | a malformed message logs exactly the invalid-format line; any other message logs the visualization line first |
| Videos.ApplyAllIsLatest | src/app/videos/page.tsx:53-75 | last-write-wins: after any sequence of messages, each displayed field holds what the last message that wrote it wrote, or its earlier value |
| Videos.ErrorKeepsRate | src/app/videos/page.tsx:57-70 | an illustration of `ApplyMessage`'s contract, not a further property: a good rate report followed by an error report shows the error and keeps the rate and the image |
| Videos.StreamPage.constructor | src/app/videos/page.tsx:9-17 | initial state: disconnected, not processing, nothing shown, no socket, no stream, no interval |
| Videos.StreamPage.Mount | src/app/videos/page.tsx:20-37 | without a token: redirect to `/auth` and nothing changes; with one: a socket to the endpoint with the token |
| Videos.StreamPage.InitializeSocket | src/app/videos/page.tsx:40-45 | a new socket, not yet open, whose URL ends in the token (`null` when none); the connecting line is logged |
| Videos.StreamPage.OnOpen | src/app/videos/page.tsx:46-51 | connected, error cleared, the open and camera-request lines logged; rate, image and capture state unchanged |
| Videos.StreamPage.CameraStarted | src/app/videos/page.tsx:91-109 | the stream is held; the start is logged only when the video element exists |
| Videos.StreamPage.CameraFailed | src/app/videos/page.tsx:110-114 | the camera error text is shown and logged; nothing else changes |
| Videos.StreamPage.OnMessage | src/app/videos/page.tsx:53-75 | the display becomes `ApplyMessage` of the old display, the log grows by `MessageLog`; connection and capture state unchanged |
| Videos.StreamPage.ShowMessage | src/app/videos/page.tsx:57-71 | the three state setters of a well-formed message: the display becomes `ApplyMessage` of the old one, and the log, capture and connection state are untouched |
| Videos.StreamPage.OnClose | src/app/videos/page.tsx:77-80 | disconnected and logged; processing, the interval and the display are not touched |
| Videos.StreamPage.OnError | src/app/videos/page.tsx:82-87 | disconnected, the socket error text shown and logged; rate and image unchanged |
| Videos.StreamPage.StartProcessing | src/app/videos/page.tsx:118-134 | not ready: only the error is set; ready: processing, exactly one interval runs and session storage holds its id in decimal |
| Videos.StreamPage.ParseIntervalId | src/app/videos/page.tsx:138-140 | the interval handle read back from session storage: a non-empty run of digits parses to the number it denotes |
| Videos.StreamPage.ClearStoredInterval | src/app/videos/page.tsx:138-142 | a truthy stored id stops its interval and is removed from session storage; no interval is left running under the page's invariant; display, log and connection unchanged |
| Videos.StreamPage.StopProcessing | src/app/videos/page.tsx:137-146 | no interval is left running, the stored id is removed, processing is off and the image is cleared; the invariant "an interval runs iff processing, with the stored id" is kept |
| Videos.StreamPage.CaptureFrame | src/app/videos/page.tsx:149-167 | a frame's encoding is scheduled iff the elements exist, the socket is held and open and a 2D context exists |
| Videos.StreamPage.BlobReady | src/app/videos/page.tsx:168-172 | a frame is sent iff a blob was produced and the socket is held and open at that moment |
| Videos.StreamPage.CleanupResources | src/app/videos/page.tsx:176-191 | as stopping, plus no socket and no stream; `connected` is left to the close event |
| Videos.StreamPage.Reconnect | src/app/videos/page.tsx:199-202 | cleanup, then a fresh unopened socket; a truthy stored interval id is removed from session storage; both log lines in order |
| Auth.Rule1 | src/app/auth/page.tsx:46 | definition: rule1 as the effect computes it, 8 to 16 UTF-16 code units; what it means is stated by `Rule1Length` |
| Auth.Rule1Length | src/app/auth/page.tsx:46 | rule1 admits 4 to 16 characters, and for text without characters above U+FFFF holds iff the length is 8 to 16 |
| Auth.LookaheadFindsCorrect | src/app/auth/page.tsx:47 | the lookahead scan succeeds iff a character of the class occurs before the first line terminator, both directions |
| Auth.Rule2Meaning | src/app/auth/page.tsx:47 | rule2 holds iff a letter and a digit both occur before the first line break; for single-line text, iff it contains a letter and a digit |
| Auth.Rule2 | src/app/auth/page.tsx:47 | definition: both lookaheads of `/^(?=.*[a-zA-Z])(?=.*\d)/` succeed; what it means is stated by `Rule2Meaning` |
| Auth.Rule3 | src/app/auth/page.tsx:48 | definition: the confirmation equals the password and the password is not empty |
| Auth.IndexOf | src/app/auth/page.tsx:128 | the position of the first `@`, or the length when there is none |
| Auth.IsValidEmail | src/app/auth/page.tsx:126-129 | definition: the check split at the first `@`; `IsValidEmailMatchesPattern` proves it is the regular expression's language |
| Auth.IsValidEmailMatchesPattern | src/app/auth/page.tsx:126-129 | `isValidEmail` holds iff the address is A `@` B `.` C with A, B, C non-empty and free of white space and `@`, both directions |
| Auth.CaptchaMatches | src/app/auth/page.tsx:62 | definition: the entered and shown captcha agree after lower-casing (also at line 101); `LoginCheck` and `RegisterCheck` state its place in the checks |
| Auth.AlertText | src/app/auth/page.tsx:57-69 | definition: the alert text for each local refusal, including the password-rules text of line 327 |
| Auth.PasswordRules | src/app/auth/page.tsx:324 | definition: `rule1 && rule2 && rule3` (also at line 406); `RegisterClicked` and `ResetClicked` state what it gates |
| Auth.LoginCheck | src/app/auth/page.tsx:57-70 | the first failing check decides: empty fields, then the case-insensitive captcha, then the e-mail pattern; none fails iff all pass |
| Auth.RegisterCheck | src/app/auth/page.tsx:101-109 | the captcha is checked before the e-mail pattern; none fails iff both pass |
| Auth.ReadToken | src/app/auth/page.tsx:79 | `response.data.token` throws iff the response is `null` or its `data` is `undefined` or `null`; otherwise it is the `token` member of `data` |
| Auth.TokenLocation | src/app/server/utils/axios/index.tsx:50-56 | through the response interceptor, `Login` reads the token at `body.data.token` for a `{code: 200}` body and at `body.token` otherwise |
| Auth.AfterLoginSuccess | src/app/auth/page.tsx:78-85 | definition: the storage writes of a successful login; `LoginStorageEffects` states them key by key |
| Auth.AfterLoginFailure | src/app/auth/page.tsx:91-94 | definition: the storage writes of a failed login; `LoginStorageEffects` states them key by key |
| Auth.LoginStorageEffects | src/app/auth/page.tsx:77-94 | success stores the address, and stores token and password only when "remember" is ticked and the token is truthy, with no other key changed; failure keeps the address and leaves no token or password |
| Auth.AuthPage.constructor | src/app/auth/page.tsx:11-21 | the login form with empty fields |
| Auth.AuthPage.Init | src/app/auth/page.tsx:25-42 | stored address and password fill the form; the `passwordChange` mark selects the reset form, is removed, and empties the password |
| Auth.AuthPage.SelectForm | src/app/auth/page.tsx:208 | the links switch forms and change nothing else |
| Auth.AuthPage.CaptchaChanged | src/app/auth/page.tsx:51-54 | the new captcha code is recorded |
| Auth.AuthPage.Login | src/app/auth/page.tsx:56-98 | a failing check refuses with its reason and leaves storage alone; a request that throws or rejects runs the failure path; otherwise the success path with the alert and the redirect to `/` |
| Auth.AuthPage.RegisterClicked | src/app/auth/page.tsx:100-124 | without all three rules: refused, nothing stored; then `RegisterCheck`; success stores address and user name and goes to `/` |
| Auth.AuthPage.ResetClicked | src/app/auth/page.tsx:405-411 | with all three rules, success is reported and the login form shown; otherwise refused, form unchanged |
| Http.ForInKeys | src/app/server/utils/axios/index.tsx:31 | definition: an object's member names in order, an array's or string's indices, nothing for other values; `ForInKeysDistinct` and `FormCarriesEachMember` state what follows from it |
| Http.ForInKeysDistinct | src/app/server/utils/axios/index.tsx:31 | `for…in` visits no key twice: an object's keys are distinct, and the decimal indices of an array or string are |
| Http.FormOf | src/app/server/utils/axios/index.tsx:31-33 | definition: one form pair per visited key, with the value as a string; `BuildForm` and `FormCarriesEachMember` give it its meaning |
| Http.BuildForm | src/app/server/utils/axios/index.tsx:30-34 | the loop builds exactly `FormOf` of the body |
| Http.FormCarriesEachMember | src/app/server/utils/axios/index.tsx:28-36 | an object body becomes a form with exactly one pair per member carrying its value, and no pair is from elsewhere |
| Http.InterceptRequest | src/app/server/utils/axios/index.tsx:13-39 | for a body whose object keys are distinct, as a JavaScript object's are: `Authorization: Bearer <token>` exactly when a token is stored; `Content-Type` and form conversion only for a method other than GET, conversion only for a truthy body; a GET keeps its body |
| Http.HasCode200 | src/app/server/utils/axios/index.tsx:50 | definition: the body is truthy and its `code` is 200; `UnwrapSuccess` states what follows from it |
| Http.UnwrapSuccess | src/app/server/utils/axios/index.tsx:48-56 | the body alone is returned iff it is an object whose `code` is 200; otherwise the whole response, unchanged |
| Http.AsValue | src/app/server/utils/axios/index.tsx:53-56 | a response returned whole shows its body as `data` |
| Http.BranchOf | src/app/server/utils/axios/index.tsx:59-115 | the branch taken: timeout first, then a response, then a request without reply, then a request never sent |
| Http.JoinEmpty | src/app/server/utils/axios/index.tsx:77 | with a non-empty separator, a join is empty iff there are no pieces or one empty piece |
| Http.DetailPiece | src/app/server/utils/axios/index.tsx:77 | definition: the text of one `detail` item, `msg`, else `message`, else its JSON text; `DetailNeverEmpty` states what the pieces give |
| Http.DetailText | src/app/server/utils/axios/index.tsx:77 | definition: reading an array `detail` throws when an item is `null`, and is otherwise the pieces joined by `; `; `DetailNeverEmpty` and `JoinEmpty` give it its meaning |
| Http.ErrorMessage | src/app/server/utils/axios/index.tsx:65-89 | the alert text by priority: falsy body, string `detail`, array `detail` (empty join gives the fallback), string `message`, string body, JSON text |
| Http.DetailNeverEmpty | src/app/server/utils/axios/index.tsx:75-78 | without `null` items the array case yields text, empty only for no items or one empty piece, which the fallback then replaces |
| Http.HandleError | src/app/server/utils/axios/index.tsx:58-119 | every branch rejects; a timeout skips message extraction; a 401 removes the token and redirects to `/auth` unless the path contains `/auth`; the other branches alert their texts and keep storage |
| Http.NoRedirectOnAuthPages | src/app/server/utils/axios/index.tsx:102-104 | any path with `/auth` in it counts as a sign-in page |
| Picture.IsValidImageFile | src/app/picture/page.tsx:77-80 | accepted iff the type is `image/jpeg`, `image/jpg` or `image/png` |
| Picture.ClassId | src/app/picture/page.tsx:116 | the class number is 1 iff the name is `"head_up"`, else 0 |
| Picture.ToDetection | src/app/picture/page.tsx:111-118 | definition: the object the `.map` callback builds from one item; its fields are stated by `DetectionFields` |
| Picture.MapDetections | src/app/picture/page.tsx:111-118 | the mapping throws iff an item is `null`; otherwise it has the same length, and item `i` maps to detection `i` |
| Picture.DetectionFields | src/app/picture/page.tsx:111-118 | `box` is copied to `bbox`, `confidence` and the class name are kept, and the class number is 1 exactly for `"head_up"` |
| Picture.MapDetectionsConcat | src/app/picture/page.tsx:111 | mapping preserves order: mapping a concatenation is concatenating the mappings |
| Picture.HeadUpCountKept | src/app/picture/page.tsx:116 | the mapped detections have class 1 exactly as many times as the reply named `"head_up"` |
| Picture.ReadDetectionResult | src/app/picture/page.tsx:104-119 | the result reads succeed iff `result` exists, `detections` is an array and no detection is `null`, and then give the mapped result |
| Picture.PicturePage.constructor | src/app/picture/page.tsx:33-36 | nothing selected, no results, no error, not processing |
| Picture.PicturePage.ChooseFile | src/app/picture/page.tsx:50-59 | an alert comes iff a first file was chosen and is invalid, and then selection, results and error are unchanged; a valid one starts a read; no file means no alert and no read |
| Picture.PicturePage.FileLoaded | src/app/picture/page.tsx:60-70 | a non-empty read result becomes the selection and clears results and error |
| Picture.PicturePage.RemoveImage | src/app/picture/page.tsx:83-90 | selection, results and error are cleared and the input is reset |
| Picture.PicturePage.ShowDetectButton | src/app/picture/page.tsx:192 | definition: the detect button shows iff an image is selected, nothing is processing and there are no results |
| Picture.PicturePage.StartDetect | src/app/picture/page.tsx:93-104 | with no selection, the error is set and nothing is uploaded; otherwise the selected file is uploaded, processing is on and the detect button hides |
| Picture.PicturePage.FinishDetect | src/app/picture/page.tsx:104-125 | processing ends either way; success stores the mapped result; failure sets the error and keeps the previous results |
| BrowserStorage.LocalStorage.GetItem | src/app/auth/page.tsx:27-29 | `getItem` is `null` iff the key is absent, and otherwise the stored value |
| BrowserStorage.LocalStorage.SetItem | src/app/auth/page.tsx:78-83 | `setItem` stores the value under the key and changes no other key |
| BrowserStorage.LocalStorage.RemoveItem | src/app/auth/page.tsx:93-94 | `removeItem` drops the key and changes no other key |
| Menu.AvatarInitial | src/components/topmenus.tsx:96 | empty iff the name is; otherwise one character, the first one with ASCII case raised |
| Menu.AvatarInitialOnlyFirst | src/components/topmenus.tsx:96 | the initial depends on the first character only |
| Menu.TopMenu.constructor | src/components/topmenus.tsx:12-14 | card hidden, the default name and address |
| Menu.TopMenu.Mount | src/components/topmenus.tsx:19-37 | the address is replaced only by a non-empty stored one; the name follows `DisplayName` |
| Menu.TopMenu.Logout | src/components/topmenus.tsx:40-61 | without a token: alert only; success: token removed, identity blanked, defaults shown, redirect to `/auth`; failure: alert, only the token is gone, what is shown is unchanged |
| Menu.TopMenu.ToggleCard | src/components/topmenus.tsx:90 | the card's visibility flips |
| Menu.TopMenu.CloseCard | src/components/topmenus.tsx:107 | the card is hidden |
| Menu.LoggedOutIdentityIsBlank | src/components/topmenus.tsx:47-56 | after a logout the blanked entries are falsy, so the next menu shows the default name |
| Profile.ProfilePage.constructor | src/app/dashboard/profile/page.tsx:7-9 | empty name and address, loading |
| Profile.ProfilePage.Init | src/app/dashboard/profile/page.tsx:12-36 | without a token: redirect, nothing set, loading stays; with one: the address from a non-empty `useremail`, the name by `DisplayName`, loading ends |
| Profile.ProfilePage.HandlePasswordChange | src/app/dashboard/profile/page.tsx:39-43 | the `passwordChange` mark is written and the page goes to `/auth` |
| Profile.PasswordChangeHandOff | src/app/dashboard/profile/page.tsx:41 | the sign-in page opened after the mark shows the reset form with an empty password and removes the mark; the next one opens on the login form |

## Left out

- Log timestamps: the `toLocaleTimeString()` prefix of each log line is not modelled. A log entry holds its message only.
- Browser devices: the WebSocket transport, `getUserMedia`, video playback, canvas drawing and `toBlob` JPEG encoding are reduced to events and booleans. The input to each is not modelled.
- Timing: the 100 ms interval cadence and the interleaving of a pending `toBlob` callback with a socket close are concurrency. The model lets these events come in any order the preconditions allow. As the code does, a blob encoded before a stop can still be sent afterwards. `Videos.StreamPage.CameraStarted` logs the start when `getUserMedia` resolves; the code logs it later, in the `onloadedmetadata` callback, so events between the two are not interleaved with that log line.
- Stale sockets: the model does not track which socket raised a close or error event. The `current` flag says whether it was the one held.
- Unmount clean-up: the live page's unmount clean-up is registered only when a token was present. The model offers `CleanupResources` to any caller.
- The picture page's mount check (src/app/picture/page.tsx:39-47) is not modelled. It redirects to `/auth` without a token, the same gate `Profile.ProfilePage.Init` models, and changes no state.
- `JSON.parse`, `JSON.stringify` and `String(v)`: messages arrive already parsed, and the other two are function parameters with no properties assumed.
- `URLSearchParams`: serialisation to `application/x-www-form-urlencoded` text is not modelled. The model ends at the list of form pairs.
- `for…in` order: JavaScript visits integer-like keys of an object first, in ascending order. The model keeps the members' order.
- `for…in` over strings: for a string body, JavaScript visits UTF-16 code units, and the model visits characters. No caller sends a string body.
- Case mapping: `toLowerCase`/`toUpperCase` map ASCII letters only. Unicode case mapping is not modelled.
- `charAt(0)` of a name that starts above U+FFFF returns half a surrogate pair. The model takes the whole character.
- Text.ParseInt: does not model the `0x` prefix that `parseInt` without a radix reads as hexadecimal, or the loss of precision beyond 2^53. The page only reads back ids it wrote in decimal.
- Number formats: numbers are exact reals. The KB size and the percentage formatting with `toFixed` are display only and are not modelled.
- Axios: the transport, the 1000 ms timeout, the base URL and the default headers are not modelled. Axios lower-cases the method before the interceptors run, so `verb` is taken as given, in lower case.
- Http.InterceptRequest: a `FormData` body is not a modelled payload. The picture upload (src/app/server/apis/Analytics.tsx:46-61) sends one through the same client, with a multipart `Content-Type`. As written, the interceptor replaces that header with the form-urlencoded one (src/app/server/utils/axios/index.tsx:22-25) and builds the form from what `for…in` visits on a `FormData`, which is its enumerable methods (`append`, `get`, …) rather than the file entry (src/app/server/utils/axios/index.tsx:28-34). The model does not represent `FormData` or those method names.
- The request interceptor's error handler (src/app/server/utils/axios/index.tsx:40-43) only passes the error on.
- The commented-out response interceptor (src/app/server/utils/axios/index.tsx:123-196) is dead code.
- `error.response.data` is taken to be a JSON value. A response without a body (`undefined`) is not modelled.
- src/app/server/apis/AuthAPI.tsx and src/app/server/apis/Analytics.tsx are request wrappers and are not modelled. The one exception: `logout` removes the token before its request, and `Menu.TopMenu.Logout` includes that removal.
- src/components/card.tsx (click-outside handling), src/app/layout.tsx and src/app/page.tsx are markup and a redirect, and are not modelled.
- Rendering: the page markup is not modelled, apart from the detect button's condition (`Picture.PicturePage.ShowDetectButton`).
- Form inputs: their `onChange` setters are direct writes to the page's fields.
- Rule flags: rule1–rule3 are evaluated from the current fields. The effect that stores them one render later is not modelled.
- `typeof window !== 'undefined'` guards: the code is taken to run in a browser.
