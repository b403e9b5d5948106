# tsuna — a Dafny model of the Pushover desktop client's command logic

tsuna is a small command-line client for the Pushover Open Client API. It has three
subcommands. `register` logs in, registers this machine as a device and stores the
secret and device id in the desktop keyring. `delete` removes both keyring items.
`download` fetches the pending messages, shows each one as a desktop notification
and acknowledges the batch by sending the highest message id to the server.

This project models the decisions and bookkeeping of `src/main.rs`. The HTTP,
keyring, terminal and notification calls around them become inputs and events:

- `basics.dfy` (module `Basics`): the `Option` type.
- `messages.dfy` (module `Messages`): `POMessage` with its `i64` id, the fold that
  computes the acknowledgement id, and the empty/non-empty classification of a
  downloaded list.
- `api.dfy` (module `Api`): the methods of `AppState`. Each is a function from what
  the user typed and what the server answered to a result and the requests sent.
  This module also holds the rule that every line read from stdin must end in a
  newline.
- `app.dfy` (module `App`): the keyring as the two facts it stores (class
  `Secrets`) and `main` itself. `Main` is the specification of one run as a
  result, an ordered trace of events and the new keyring contents. `RunCommand`
  is the step-by-step method, including the loop that shows the messages, and it
  is proved to do exactly what `Main` specifies.
- `properties.dfy` (module `Properties`): properties of runs stated over the
  trace. They cover the order of the registration steps, show-then-acknowledge,
  the refusals, and how one command's keyring changes decide the next command.

Scope: `src/main.rs` runs one command per invocation. Download fetches at most one
batch, shows it and acknowledges it once; there is no long-running connection, retry
loop or icon cache. The acknowledgement id is a fold seeded with 0, so a batch whose
ids are all ≤ 0 is acknowledged with 0.

## Model

| member | source | states |
|---|---|---|
| `Messages.FoldMax` | src/main.rs:176 | The fold's result is at least the seed, at least every message id, and either the seed or the id of some message. |
| `Messages.AckId` | src/main.rs:176 | The acknowledged id is ≥ 0, ≥ every id in the batch, and 0 unless it is one of the batch's ids. |
| `Messages.AckIdIsLargestWhenPositive` | src/main.rs:176 | If some id is positive, the acknowledged id is the largest id of the batch: it occurs in the batch and bounds every id. |
| `Messages.AckIdIsZeroWhenNonePositive` | src/main.rs:176 | If no id is positive, including the empty batch, the acknowledged id is 0. |
| `Messages.FoldMaxAppend` | src/main.rs:176 | Folding over `a + b` equals folding over `b` from the result for `a`. |
| `Messages.AckIdOrderIndependent` | src/main.rs:176 | Two batches holding the same messages in any order get the same acknowledged id. |
| `Messages.ClassifyBatch` | src/main.rs:164-167 | `None` exactly when the list is empty; otherwise `Some` of the same list, which is non-empty. |
| `Messages.UnbatchClassify` | src/main.rs:164-167 | Classification keeps every message in order: reading the classified batch back gives the server's list. |
| `Messages.ClassifyUnbatch` | src/main.rs:164-167 | Every classification other than `Some([])` comes from the list it holds. |
| `Api.StripNewline` | src/main.rs:71 | A line succeeds exactly when it ends in `"\n"`, and the result plus one `"\n"` is the line; otherwise the error is `NoInput`. |
| `Api.StripTypedLine` | src/main.rs:130 | A typed line followed by a newline reads back as exactly that line. |
| `Api.Login` | src/main.rs:77-117 | Without a newline-terminated username there is no request and the error is `NoInput`. The first request carries email and password. Status 200 returns that answer's secret. Status 412 plus a valid token causes exactly one resend whose form is the first form plus `twofa`, and it succeeds only on 200, returning the second secret. Any other first status fails with that status after one request. |
| `Api.RegisterDevice` | src/main.rs:119-149 | No request without a newline-terminated device name. Otherwise it sends one request with the secret, `os = "O"` and the name. It succeeds exactly on status 200, returning the answer's id; any other status is an `UnhandledStatus` error. |
| `Api.DownloadMessages` | src/main.rs:152-168 | Missing credentials fail before any request. A missing `messages` key is an error, not an empty batch. On success the batch holds exactly the server's list in order, is `None` exactly when that list is empty, and is never `Some([])`. |
| `Api.DeleteMessages` | src/main.rs:170-186 | Missing credentials fail before any request. Otherwise it sends one acknowledgement for the stored device id and secret. The id is ≥ 0, ≥ every id of the batch, and 0 unless it is one of them. It succeeds exactly when an answer arrives. |
| `App.Shows` | src/main.rs:291-294 | One `Show` event per message, at the same position, with its title and body. |
| `App.Main` | src/main.rs:256-308 | Register with either item stored prints a notice, succeeds and changes nothing. Any other command without both items stored does the same. Delete with both stored clears both. Download never changes the keyring. Register changes it only by succeeding and storing both items. |
| `App.Secrets.constructor` | src/main.rs:235-241 | Opening the keyring leaves its items as they are, with empty credentials in memory. |
| `App.Secrets.StoreSecrets` | src/main.rs:206-218 | Both keyring items afterwards hold the in-memory secret and device id. |
| `App.Secrets.DeleteSecrets` | src/main.rs:220-233 | Both keyring items are absent afterwards. |
| `App.ShowBatch` | src/main.rs:289-297 | Shows the batch's messages in order up to the first failing notification. It succeeds exactly when all are shown. |
| `App.RunDownload` | src/main.rs:285-305 | The step-by-step Download gives the result and trace that the specification of a download prescribes. |
| `App.RunRegister` | src/main.rs:263-266 | The step-by-step registration gives the specified result, trace and keyring. On success the keyring holds the in-memory credentials. |
| `App.RunCommand` | src/main.rs:245-311 | One run of `main` opens a fresh `Secrets` over the given keyring contents and returns the result, trace and keyring that `Main` specifies. Non-Register commands on a registered keyring load both stored items into memory. |
| `Properties.RegisterSteps` | src/main.rs:256-266 | Register on an empty keyring sends only login requests, then device requests, then one store, in that order. On success the trace is exactly the login requests, the device request and one keyring write. It stores exactly when it succeeds, and it stores the secret from the login and the id from the registration. A failed login sends no registration request. A failed run leaves the keyring empty. |
| `Properties.DownloadEmptyBatch` | src/main.rs:287-304 | An empty list means the run only fetches: no notification, no acknowledgement. |
| `Properties.DownloadShowsThenAcknowledges` | src/main.rs:287-304 | A non-empty batch whose notifications all appear gives this trace: fetch, show every message in batch order, then acknowledge once with the batch's acknowledgement id. The run succeeds exactly when the acknowledgement is answered. |
| `Properties.DownloadStopsAtFailedShow` | src/main.rs:291-294 | A failing notification ends the run with an error. The messages before it are shown in order and nothing is acknowledged. |
| `Properties.DownloadFailureIsNotEmptyBatch` | src/main.rs:159-163 | No answer, or an answer without `messages`, is an error. Nothing is shown or acknowledged and the keyring is unchanged. |
| `Properties.UnregisteredCommandDoesNothing` | src/main.rs:269-275 | Delete or Download without both items stored succeeds with notices only: no deletion, notification or acknowledgement. |
| `Properties.RegisterThenUse` | src/main.rs:256-283 | After a successful Register both items are stored. A second Register is refused, and Download fetches with the secret and device id that the registration obtained. |
| `Properties.DeleteThenUse` | src/main.rs:272-283 | After Delete the keyring is empty. Delete and Download only print the not-registered notice, and Register is no longer refused. |

## Left out

- HTTP requests, URLs, the user agent, form encoding and JSON decoding (`reqwest`, `serde`). A request is an event carrying its form fields. An answer is an input that is either absent (send or decode failure) or a status code with a decoded body.
- The `assert!` checks on the answer's `status` field and the `unwrap` of `secret` and `id`. These are preconditions on the answers (`LoginConforms`, `DeviceConforms`, `StatusOne`), required only for the command whose path reaches them. Panics are not modelled.
- Keyring access (`oo7`). The keyring is reduced to whether each item is present and its value. Keyring I/O errors in loading, storing and deleting are not modelled, so storing or deleting never fails halfway.
- Terminal I/O. The prompts and the debug output (`Sending request`, `Response`) are not modelled. Failures of `read_line`, of flushing stdout and of the hidden password prompt (`rpassword`) are not modelled either. Lines read from stdin are inputs, and the password is an input used as given.
- Desktop notifications (`notify_rust`). A shown notification is a `Show` event. A failing notification is the index given by `World.failingShow`.
- `Api.DeleteMessages`: the acknowledgement id is carried as an integer. Its decimal rendering (`to_string`) for the form is not modelled.
- Command-line parsing (`clap`) and the `tokio` runtime. The command is an input, and the run is sequential.
