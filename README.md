# QR code customizer front end: verified model of its rule sets

The application is a single-page form that builds QR-code generation
requests for a remote service, previews the returned image (optionally laid
over a decorative "Scan Me" sticker), and downloads it. Around that flow sit a
small session cache in the browser's local storage and the account dialogs.
This project models the parts of that client that are rules rather than
markup, in Dafny, and proves their properties:

- `Common` (common.dfy): optional values, results, the abstract HTTP reply
  (`Rejected(message)` or `Answered(ok, detail, body)`), JavaScript truthiness
  of `string | null`, and the shared "`detail || fallback`" error rule.
- `Stickers` (stickers.dfy): the five-entry sticker catalog as a constant
  sequence, with exact rational aspect ratios, the lookup by id, and the
  geometry of each overlay box.
- `Auth` (auth.dfy): local storage as a class over `map<string, string>`;
  token and profile writes, reads and removal; `isAuthenticated`; and the
  request flows `register`, `login`, `getCurrentUser`, `forgotPassword`,
  `resetPassword`. Each flow returns the requests it issued, so "fails before
  any request" can be stated. None of the flows has a `modifies` clause, so
  none of them can write to storage.
- `StickerSelector` (sticker_selector.dfy): the selection toggle, the clear
  action, the check marks, and the `imageErrors` flags as a class.
- `RegisterForm` (register_form.dfy): the ordered password checks and the
  `error` / `loading` / `success` flags of the submit handler, as a class.
- `AuthModal` (auth_modal.dfy): the three-view dialog as a class, with its
  prop-sync effect and its form callbacks.
- `App` (app.dfy): the page state as a class (`Page`), covering preview
  generation, upload routing, download, tab switching and the phone field.
  It also holds the retrying download loop, the preview card, and the string
  rules.

Network answers, object URLs and `JSON.parse` / `JSON.stringify` are inputs
to the model: a reply value per request, an object-URL string, and a
`parse` / `serialize` function parameter.

The model follows the code as written:

- Only PDF is coerced to PNG for the preview. SVG is requested as SVG.
- Choosing SVG with a sticker selected only shows a warning. The download
  still saves the current preview, which was generated with the sticker.
- Nothing in the core files writes the token and the profile together.
  `setToken` and `setUser` are independent writes, and only `removeToken`
  touches both keys.
- `login` with an empty `access_token` falls back to the stored token,
  because `getCurrentUser` takes `token || getToken()`.
- A failed profile fetch reports a fixed message and ignores the backend's
  `detail`.

## Model

| member | source | states |
|---|---|---|
| `Common.DetailOr` | src/lib/auth.ts:83-86 | a non-empty `detail` is the message, otherwise the fixed fallback; with a non-empty fallback the message is never empty |
| `Common.CheckReply` | src/lib/auth.ts:83-88 | success exactly when the answer is ok, carrying its body; a non-ok answer fails with `detail` or the fallback; a rejected fetch fails with its own message |
| `Stickers.CatalogIds` | src/lib/stickers.ts:13-56 | the catalog has exactly the ids grid, bubble, film, book, beer in that order, all distinct |
| `Stickers.CatalogGeometry` | src/lib/stickers.ts:20-54 | every entry has 0 ≤ left, left + width ≤ 100, 0 ≤ top < 100, width > 0, aspectRatio > 0, and its square overlay fits vertically: top + width·aspectRatio ≤ 100, in exact rationals |
| `Stickers.Find` | src/App.tsx:1198 | `find` by id: none exactly when no entry has the id; otherwise an entry with that id, and no earlier entry has it |
| `Stickers.FindUnique` | src/lib/stickers.ts:13-56 | with distinct ids, the lookup returns `s` exactly when `s` is an entry carrying the id |
| `Stickers.CatalogFind` | src/App.tsx:1198-1199 | each of the five ids finds its own entry; any other id finds nothing |
| `Auth.StoredToken` | src/lib/auth.ts:42-44 | present exactly when the token key is stored, with its stored value |
| `Auth.StoredUser` | src/lib/auth.ts:58-66 | no profile when the user key is absent or empty; otherwise whatever parsing the stored text gives, which is none when parsing fails |
| `Auth.Cleared` | src/lib/auth.ts:47-50 | both session keys are gone; every other key is kept with its value |
| `Auth.SetToken` | src/lib/auth.ts:37-39 | storage afterwards is the old storage with only the token key written |
| `Auth.GetToken` | src/lib/auth.ts:42-44 | returns the stored token exactly when the token key is present |
| `Auth.RemoveToken` | src/lib/auth.ts:47-50 | storage afterwards is the old storage without the two session keys, nothing else changed |
| `Auth.SetUser` | src/lib/auth.ts:53-55 | storage afterwards is the old storage with only the user key written, holding the serialized profile |
| `Auth.GetUser` | src/lib/auth.ts:58-66 | null for an absent or empty user entry, else the parse of the stored text |
| `Auth.Authenticated` | src/lib/auth.ts:69-71 | on a storage snapshot: true exactly when the token key is stored with a non-empty value |
| `Auth.IsAuthenticated` | src/lib/auth.ts:69-71 | true exactly when a token is stored and is not the empty string |
| `Auth.Logout` | src/lib/auth.ts:134-136 | clears both session keys, keeps all others, and leaves the user unauthenticated |
| `Auth.WritesAreIndependent` | src/lib/auth.ts:37-55 | writing the token leaves the read-back profile unchanged; writing the profile leaves authentication unchanged; after writing a token, authentication holds exactly when it is non-empty |
| `Auth.UserRoundTrip` | src/lib/auth.ts:53-66 | a profile written with `setUser` reads back with `getUser` when parsing inverts serializing; after logout no profile reads back and the user is unauthenticated |
| `Auth.Register` | src/lib/auth.ts:74-89 | exactly one register request; success exactly when the answer is ok, with its profile; failure message is `detail` or the fixed default, or the rejection's message |
| `Auth.GetCurrentUser` | src/lib/auth.ts:116-131 | uses the explicit token when non-empty, else the stored one; with neither it fails with the no-token message and sends nothing; a non-ok answer fails with the fixed message |
| `Auth.Login` | src/lib/auth.ts:92-131 | the credentials request is always first; a failed token step fails with its message and sends nothing more; otherwise the profile is fetched with the issued token (or the stored one when the issued token is empty); success pairs the issued token with the fetched profile and happens exactly when both steps are ok; when the token step succeeds and the profile fetch fails, the result is the fixed profile message, or the rejection's own message when the fetch was rejected |
| `Auth.ForgotPassword` | src/lib/auth.ts:139-152 | one request; success exactly when ok; failure message is `detail` or the fixed default, or the rejection's message |
| `Auth.ResetPassword` | src/lib/auth.ts:155-168 | one request; success exactly when ok; failure message is `detail` or the fixed default, or the rejection's message |
| `StickerSelector.Toggle` | src/components/StickerSelector.tsx:36-42 | the click deselects exactly when that sticker was the selection, and otherwise selects that sticker |
| `StickerSelector.Clear` | src/components/StickerSelector.tsx:24-31 | offered only for a truthy selection; it yields no selection, which differs from the current one |
| `StickerSelector.ToggleLaws` | src/components/StickerSelector.tsx:42 | two clicks on one sticker from no selection return to no selection; a click on another sticker switches straight to it; toggling twice ends selected exactly when it started selected |
| `StickerSelector.Checkmarks` | src/components/StickerSelector.tsx:35-36 | one mark per catalog button, set exactly when the selection equals that button's id |
| `StickerSelector.AtMostOneCheckmark` | src/components/StickerSelector.tsx:80-84 | over the catalog no two buttons carry the check mark, and a button carries it exactly when the selection is its id |
| `StickerSelector.ImageErrors.constructor` | src/components/StickerSelector.tsx:14 | starts with no error flags |
| `StickerSelector.ImageErrors.HasError` | src/components/StickerSelector.tsx:37 | a sticker has an error exactly when it has an entry, since entries are only ever true |
| `StickerSelector.ImageErrors.HandleImageError` | src/components/StickerSelector.tsx:16-18 | sets the flag of that id to true, leaves every other flag as it was, never clears one |
| `RegisterForm.Validate` | src/components/auth/RegisterForm.tsx:32-40 | passes exactly when the two passwords match and have at least 8 characters; a mismatch gives the mismatch message even when the password is also short; a matching short password gives the length message |
| `RegisterForm.CaughtMessage` | src/components/auth/RegisterForm.tsx:51 | an `Error`'s own message, else the generic message |
| `RegisterForm.Form.constructor` | src/components/auth/RegisterForm.tsx:16-25 | empty fields, no error, not loading, not succeeded |
| `RegisterForm.Form.SetFormData` | src/components/auth/RegisterForm.tsx:118-150 | the form data is replaced by the edited record |
| `RegisterForm.Form.SetConfirmPassword` | src/components/auth/RegisterForm.tsx:162 | the confirmation becomes the typed value |
| `RegisterForm.Form.HandleSubmit` | src/components/auth/RegisterForm.tsx:27-55 | `register` is called, with the form data, exactly when validation passes; on a validation failure the error is the validation message and loading and success are untouched; after a call loading is false, success sets the flag and leaves the error cleared, failure sets the caught message |
| `AuthModal.DefaultView` | src/components/auth/AuthModal.tsx:17 | the requested view, or login when none is given |
| `AuthModal.Rendered` | src/components/auth/AuthModal.tsx:40-59 | exactly one form is rendered, and it is the form of the current view |
| `AuthModal.Handlers` | src/components/auth/AuthModal.tsx:40-59 | the login view offers exactly the success callback, the register link and the forgot-password link, the register view the login link and the success callback, the forgot-password view only the back link |
| `AuthModal.Target` | src/components/auth/AuthModal.tsx:27-57 | the login success keeps the login view, the register link opens the register view, the forgot-password link the forgot-password view, and the login link, the register success callback and the back link all return to the login view |
| `AuthModal.Transitions` | src/components/auth/AuthModal.tsx:32-57 | from login the two links lead to register and forgot-password while the login success stays on login; the register view offers the login link and the success callback, the forgot-password view the back link, and every callback of those two views leads back to login |
| `AuthModal.Modal.constructor` | src/components/auth/AuthModal.tsx:17-18 | the view starts at the requested view, login by default |
| `AuthModal.Modal.SetProps` | src/components/auth/AuthModal.tsx:21-25 | when `open` or the requested view changed and the dialog is open, the view resets to the requested view; otherwise it is kept |
| `AuthModal.Modal.Dispatch` | src/components/auth/AuthModal.tsx:32-57 | a callback of the rendered form installs its fixed target view: the login success leaves the view unchanged, the two links move away from login, every callback of the other views returns to login |
| `AuthModal.Modal.HandleSuccess` | src/components/auth/AuthModal.tsx:27-30 | the user is first passed to the parent, then the parent is asked to close the dialog |
| `App.PreviewFormat` | src/App.tsx:152 | never PDF; PNG when PDF is selected; any other format, SVG included, unchanged |
| `App.DownloadExtension` | src/App.tsx:226 | "jpg" for "jpeg", else the format itself |
| `App.DownloadFilename` | src/App.tsx:226-227 | the name is "qrcode." followed by the extension |
| `App.FilenamesDistinct` | src/App.tsx:226-227 | two selectable formats give the same file name only when they are the same format; the preview format of a selectable format is selectable and coercing it again changes nothing |
| `App.TabDefault` | src/App.tsx:584-591 | url, email, pdf, rating, phone and any other tab give their fixed contents |
| `App.TabDefaults` | src/App.tsx:584-591 | the phone tab shows an empty phone input; the content becomes empty exactly for the pdf and rating tabs |
| `App.IndexFrom` | src/App.tsx:810 | the first position at or after the start where the pattern occurs, or none when it occurs nowhere there |
| `App.ReplaceFirst` | src/App.tsx:810 | text without the pattern is returned unchanged; otherwise the first occurrence is cut out and the replacement put in its place, everything before and after it kept |
| `App.PhoneDisplay` | src/App.tsx:810 | content starting with "tel:" shows what follows the first "tel:"; content without "tel:" is shown unchanged |
| `App.PhoneContent` | src/App.tsx:811 | the prefix followed by the input |
| `App.PhoneRoundTrip` | src/App.tsx:810-811 | displaying the content set from input `v` shows `v`; typing back what is displayed for a content starting with "tel:" restores that content |
| `App.DownloadWithRetry` | src/App.tsx:210-223 | between 1 and retries+1 attempts; every attempt before the last failed; success exactly when the last attempt is ok, with its body; on failure all retries+1 attempts were made and the last failure is returned |
| `App.PreviewPane` | src/App.tsx:1187-1225 | skeleton exactly while loading; placeholder exactly without an image; otherwise the image, composed with the sticker the lookup finds and bare when the lookup finds none |
| `App.PreviewPaneStickers` | src/App.tsx:1196-1211 | an unknown sticker id falls back to the bare image; a known id composes with its own catalog entry, whose overlay lies inside the background |
| `App.Page.constructor` | src/App.tsx:92-105 | the initial form state: example URL content, black on white, size 500, margin 1, PNG, level M, square shapes, no logo, no sticker, no image, no error |
| `App.Page.RequestFor` | src/App.tsx:145-158 | the request carries the current content, logo and sticker and the requested format |
| `App.Page.BeginGenerate` | src/App.tsx:133-137 | empty content: no request, no state change; otherwise the preview request is issued with the coerced format, loading is set and the error cleared |
| `App.Page.FinishGenerate` | src/App.tsx:161-174 | an ok answer replaces the image; a failure keeps the image and sets the error to the backend detail, the default, or the rejection message; loading ends in both cases; with a non-empty object URL, a shown image is never replaced by an empty one |
| `App.Page.GenerateQrCode` | src/App.tsx:133-175 | empty content: nothing happens; otherwise one preview request, loading false afterwards, success installs the new image with no error, failure keeps the old image and sets the error; an existing image is never removed or replaced by an empty one |
| `App.Page.HandleFileUpload` | src/App.tsx:177-205 | no file: no effect; else the first file is uploaded; on success its URL goes to the logo for a logo upload and to the content otherwise, the other field and the error untouched; on failure only the error is set |
| `App.Page.HandleDownload` | src/App.tsx:207-299 | nothing without an image; the SVG warning exactly for SVG with a sticker; the PDF path makes 1 to 3 identical PDF requests, every one before the last having failed, and saves exactly when the last is ok with at least 100 bytes; other formats save the preview exactly when its re-fetch is ok with at least 100 bytes; every save is named by the download filename and holds at least 100 bytes |
| `App.Page.SwitchTab` | src/App.tsx:584-591 | the content becomes the tab's default |
| `App.Page.EditPhone` | src/App.tsx:811 | the content becomes "tel:" plus the input, and the phone field then shows exactly the input |
| `App.Page.SelectSticker` | src/App.tsx:982 | the selection becomes the picker's choice |
| `App.Page.SetFormat` | src/App.tsx:1248 | the format becomes the chosen one |

## Left out

- Rendering, styling, toasts, console output, and the anchor-click and object-URL mechanics of saving a file are not modelled. A save is an outcome value.
- The 500 ms debounce that triggers generation, the 1 s pause between download attempts, the 30 s per-attempt timeout, and RegisterForm's 2 s delayed success callback are not modelled. A timeout counts as a rejected attempt. Only the number of attempts is kept, not time.
- Overlapping generation requests are not modelled. The model is sequential, so the stale-response race between them is out of scope.
- `fetch`, `JSON.parse`, `JSON.stringify` and local storage itself are inputs. A `response.json()` that throws on a malformed body is not modelled.
- Share actions (clipboard, Web Share, share URLs), the Google sign-in redirect, the help page, the footer, the inspiration section and the forgot-password form are not part of this model.
- The previous preview object URL is not revoked when a new image arrives. The model keeps only the current URL, and the code frees nothing either.
- `Auth.Login`: a missing `access_token` field is modelled as the empty string. Both are falsy, so the flow is the same.
- `RegisterForm.Validate`: the length is counted in Unicode characters. JavaScript counts UTF-16 code units, so a password with characters outside the Basic Multilingual Plane is counted shorter here.
- `App.Page.HandleFileUpload`: the `url` field of the upload answer is assumed to be present and a string.
