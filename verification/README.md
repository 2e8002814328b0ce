# podu.pics upload core in Dafny

podu.pics is a small image-hosting web app. A page lets the user drop or pick an image. The page asks the `POST /api/upload` endpoint for a presigned upload URL, PUTs the file directly to object storage (Cloudflare R2), and then shows the image's public URL. This project models three parts of that flow as pure Dafny functions and proves what each one promises:

- **`UploadRoute`** models `app/api/upload/route.ts`. It checks the request in a fixed order: content type present, then content type on the allow-list, then the size ceiling. Only when all three pass does it call the signer. Any exception becomes a 500. `Post` reports the response and also which put command, if any, reached the signer.
- **`R2Client`** models `lib/r2-client.ts`:
  - the put command handed to the signer (key, content type, cache directive, 60-second expiry);
  - the presigned record (the key echoed back, public URL `baseUrl/key`, default base URL);
  - `getFromR2`'s error and default-content-type logic.
- **`HomePage`** models `app/page.tsx`. The page state `{dragActive, uploading, uploadedUrl, copied}` changes through one function per handler. Network replies, clipboard results and timer firings are inputs, and what a handler asks of the outside world comes back as a list of effects.
- **`Session`** puts the page into a small world: uploads in flight, clipboard writes in flight, pending copy-reset timers, toasts and the clipboard. It also encodes which gestures the rendered page can deliver. The invariant proved for every reachable run has three parts:
  - the spinner shows only while some upload is in flight;
  - the spinner and the URL view never show together;
  - the "copied" flag is set only while a timer that will clear it is pending.
- **`EndToEnd`** feeds the endpoint's own responses to the page's upload run. A rejected request never reaches the PUT, and the toast repeats the endpoint's message. The page shows `baseUrl/key` exactly when the file passes the policy and both signing and the PUT succeed.

JavaScript semantics are written out where they matter:
- the falsy content types: absent, `null`, `0`, `false` and the empty string;
- `NaN > max` being false, so an absent size passes;
- `a || b` on strings, where the empty string falls back to `b`;
- `if (uploadedUrl)`, where the empty string counts as no URL.

Three behaviours of the page are worth knowing:
- The file input is disabled while uploading (app/page.tsx:195), but the drop target is not. A drop starts a second, concurrent upload, and the first one to settle clears the spinner while the other is still in flight (`Session.DropDuringUpload`).
- A failed upload shows an error toast (app/page.tsx:65) and leaves `uploadedUrl` as it was (`Session.FailureKeepsUrl`). After a lone upload that is null, so the form shows again. If another upload has already succeeded, its URL stays on screen. The page keeps no separate failure state.
- `copyToClipboard` awaits the clipboard write before it sets "copied" (app/page.tsx:90-92). A reset in between therefore leaves "copied" set under the upload form until its timer fires (`Session.ResetBeforeClipboardSettles`).

## Model

| member | source | states |
|---|---|---|
| R2Client.BaseUrl | lib/r2-client.ts:31 | The base URL is the configured application URL unless that is absent or empty, in which case it is `http://localhost:3000`. It is never empty. |
| R2Client.GeneratePresignedUpload | lib/r2-client.ts:19-38 | The signer receives the given key and content type, the configured bucket, cache directive `public, max-age=31536000, immutable` and a 60-second expiry. A record is produced exactly when signing succeeds. The record carries the signed URL, the key unchanged, and public URL `baseUrl + "/" + key`. |
| R2Client.KeyFromPublicUrl | lib/r2-client.ts:36 | A key without '/' is exactly the last path segment of its public URL. |
| R2Client.PublicUrlInjective | lib/r2-client.ts:36 | Under one base URL, distinct keys give distinct public URLs, for any keys. |
| R2Client.GetFromR2 | lib/r2-client.ts:40-56 | A storage error propagates unchanged. A response without a body fails with "Image not found" and nothing else does. On success the buffer is the body and the content type is never empty. |
| R2Client.ReadBackContentType | lib/r2-client.ts:53-55 | A stored non-empty content type is returned as is. An absent or empty one reads back as "image/jpeg". |
| R2Client.UploadThenRead | lib/r2-client.ts:19-56 | Reading back an object stored under a presigned key, with the content type the upload was signed for, returns the stored bytes and that same content type. |
| UploadRoute.Post | app/api/upload/route.ts:8-48 | The status is 200, 400 or 500. "Content type is required" is returned iff the content type is falsy. The invalid-type message is returned iff the type is truthy but not exactly one of the five allowed strings. The too-large message is returned iff the type is allowed and the size exceeds 10 MiB. The signer is reached iff all three checks pass, with the generated key and the request's type. 200 is returned iff signing succeeds, and its body is `{uploadUrl, key, url = baseUrl/key}`. Every 500 carries the fixed message and arises iff the body is unreadable or signing fails. |
| UploadRoute.CreatedKeyIsUrlSuffix | app/api/upload/route.ts:31-39 | A successful response's key has 10 characters and is the last path segment of its URL. |
| UploadRoute.SizeBoundary | app/api/upload/route.ts:24-29 | With an allowed type, exactly 10 MiB is accepted, as are an absent size and a non-positive size. One byte more is rejected as too large. |
| UploadRoute.TypeCheckPrecedesSizeCheck | app/api/upload/route.ts:13-29 | An oversized PDF reports the type error, not the size error. The type comparison is case-sensitive. An empty type reports "Content type is required" before any size check. |
| HomePage.RunUpload | app/page.tsx:33-69 | The page posts the file's type and size. It PUTs to the credential's upload URL exactly when the credential reply is ok. A URL is surfaced exactly when the PUT is ok, and it is the credential's `url`. A non-ok reply yields its `error` field, or "Failed to get upload URL" when that is absent or empty. A failed PUT yields "Upload failed". A thrown error yields its message. |
| HomePage.HandleDrag | app/page.tsx:23-31 | Only `dragActive` can change. It becomes true on dragenter/dragover and false on dragleave. Any other drag type changes nothing. |
| HomePage.HandleDrop | app/page.tsx:71-79 | `dragActive` always becomes false. An upload of the first file only starts iff a file is present, which sets `uploading` and clears `uploadedUrl`. With no file nothing else changes. |
| HomePage.HandleChange | app/page.tsx:81-86 | An upload of the first selected file starts iff one is selected. With no file nothing changes. `dragActive` and `copied` are untouched. |
| HomePage.FinishUpload | app/page.tsx:59-67 | On completion `uploading` is false whatever the outcome. A success sets `uploadedUrl` to the credential's url. A failure leaves it unchanged and shows exactly one error toast. |
| HomePage.StartUpload | app/page.tsx:34-35 | Starting an upload sets `uploading`, clears `uploadedUrl`, leaves `dragActive` and `copied` alone, and begins exactly one upload of the given file. |
| HomePage.CopyToClipboard | app/page.tsx:88-90 | Pressing copy changes no state. With a truthy URL it starts writing exactly that URL to the clipboard. Without one it does nothing. |
| HomePage.FinishCopy | app/page.tsx:90-92 | When the awaited write succeeds, `copied` becomes true and a 2000 ms reset is scheduled, whatever the page shows by then. When it is rejected nothing changes. No other field ever changes. |
| HomePage.ResetUpload | app/page.tsx:96-99 | `uploadedUrl` becomes null and `copied` false. `dragActive` and `uploading` are unchanged. |
| HomePage.Step | app/page.tsx:23-99 | Each field changes only under the events that may change it. Only drop and change start uploads. Only failed completions toast. Only copy with a URL writes the clipboard. The timer clears only `copied`. |
| HomePage.DropUploadLifecycle | app/page.tsx:33-79 | A drop followed by its completion leaves the spinner off and `dragActive` false. A URL is shown (truthy) iff the credential reply was ok with a non-empty url and the PUT succeeded. Any URL set is that url. With no PUT the URL stays null. |
| Session.Apply | app/page.tsx:33-92 | Carrying out effects leaves the page state and the clipboard alone. In-flight uploads, pending writes, toasts and timers only grow, each only through its own kind of effect. |
| Session.Deliverable | app/page.tsx:138-195 | The form's drag, drop and file-input handlers and the URL view's copy and reset buttons are never available together. The file input cannot fire while uploading. Completions and timer firings arrive only for work actually pending. |
| Session.Next | app/page.tsx:33-99 | A drop or selection with a file puts exactly its first file in flight. An upload settling removes exactly that upload from the in-flight list and clears the spinner. A failed upload appends exactly its message to the toasts. A successful one adds no toast and sets the shown URL to its url. A timer firing clears "copied". A settling clipboard write is removed from the pending list. A successful write puts its text on the clipboard, sets "copied" and adds a pending timer. Nothing else changes the clipboard, and toasts are only ever appended, only by a failed upload. |
| Session.NextPreservesInv | app/page.tsx:33-99 | Every deliverable input keeps the invariant: the spinner shows only while an upload is in flight and never together with a URL, and "copied" is set only while a reset timer is pending. |
| Session.RunPreservesInv | app/page.tsx:33-99 | The invariant holds after any run of deliverable inputs. |
| Session.ReachableInv | app/page.tsx:10-14 | The invariant holds in every state reachable from the initial page state. |
| Session.CopyWritesShownUrl | app/page.tsx:88-92 | Copy starts writing exactly the URL on screen. Once that write succeeds, the clipboard holds the shown URL, "copied" is set and one more reset timer is pending. |
| Session.ResetBeforeClipboardSettles | app/page.tsx:88-99 | A reset between the copy click and the write's success does not stop it. "copied" then ends up set under the upload form, with its timer pending. |
| Session.FailureKeepsUrl | app/page.tsx:59-67 | A failed upload leaves `uploadedUrl` exactly as it was, whether null or another upload's URL, and appends exactly its message to the toasts. |
| Session.DropDuringUpload | app/page.tsx:183-195 | While uploading, the file input cannot deliver but a drop can. Two uploads are then in flight, and when the first fails the spinner is already off while the second is still pending. |
| EndToEnd.ClientDrivesRoute | app/page.tsx:38-63 | Against the endpoint, the page PUTs iff the endpoint answered 200, and it PUTs to the returned upload URL. A rejection is toasted with the endpoint's exact message. An empty, disallowed or oversized file gets the matching message. The URL shown is `baseUrl/key` iff the file passes the policy and signing and the PUT succeed. |
| EndToEnd.DropShowsPublicUrl | app/page.tsx:33-79 | From a fresh page, dropping an accepted image whose signing and PUT succeed ends with `baseUrl/key` shown. The spinner is off, nothing is in flight and no toast was shown. |

## Left out

- S3 client construction, the request-signing algorithm and the network transfer: the signer and the storage `send` are function parameters. The account id and access keys only matter inside them.
- `nanoid(10)`: the key is an input of ten URL-safe characters (`A–Z a–z 0–9 _ -`). Uniqueness and collision probability are not modelled.
- The byte transfer of `getFromR2` (`transformToByteArray`): the body is taken as the byte sequence it yields.
- JSON parsing: a body that fails to parse, or is JSON `null`, is one `Unreadable` case. For other bodies, the values of `contentType` and `size` are abstracted into the cases the checks distinguish. `size` is the number the `>` comparison sees after JavaScript's numeric conversion, or NaN.
- Console logging in the endpoint's catch block.
- Rendering, styling, icons, the `Dither` background and toast styling: only which handlers the rendered page exposes in each state is kept (`Session.Deliverable`).
- The GitHub star-count fetch on the page, the FOSS list page and the `foss-tools` endpoint: these are external fetches and file reads without logic.
- Real asynchrony: an upload's completion, a clipboard write's completion and the 2000 ms timer are explicit inputs, in any order the page allows. React's batching of state updates is not modelled, because each handler's updates are applied together.
- A credential reply body whose `error` is not a string, or whose `url` is some other non-string value: these are not modelled.
