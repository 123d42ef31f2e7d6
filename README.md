# Simpfun sign-in bot, modelled in Dafny

Simpfun (`simpfun.py`) signs a user in to a web service every three hours and
relays the result to a QQ group. A `Simpfun` object walks through four stages.
It logs in to get the `sf-userdata` cookie. It fetches a challenge image along
with a `PHPSESSID` cookie. It derives an offset from the image. It submits
that offset and keeps the response text. The offset comes from a pixel
heuristic. Bands 1 and 3 of the image (top and bottom) are compared pixel by
pixel. Two pixels differ when some R, G or B channel differs by 60 or more.
The reported offset is the x of the last differing pixel, in x-major scan
order, minus 50. An endless loop around the object relays each successful
result with up to three send attempts and then sleeps.

The project has four modules:

- `Wrappers` (`wrappers.dfy`): `Option`, Python string truthiness, `Reply`
  (a call that raised or returned), and the `try_except` decorator as
  `TryExcept`.
- `PixelSolver` (`solver.dfy`): pixels, images with their band rows,
  `ComparePixel`, and the scan specified by `FirstBefore`/`LastBefore`.
  `ScanBands` is the nested loop of `_get_code`. `Offset` is what that loop
  yields.
- `Session` (`session.dfy`): `SessionState` is a value with the object's
  fields. Each stage (`LoginStep`, `Reset`, `FetchStep`, `SolveStep`,
  `SubmitStep`) and the whole of `sign` (`Cycle`) is a function on that
  value. Class `Simpfun` has the same fields. Its methods update them in place
  and are proved to leave exactly the state those functions give. `Cycle`
  also records which stages ran and what each returned.
- `Scheduler` (`scheduler.dfy`): `send_message` as a predicate over the
  gateway's `retcode`, and one pass of the `while True` loop as a trace of
  `Send` and `Sleep` events (`Iteration`, `RunIteration`, `LoopStep`).

Network responses are inputs of type `Network`. Each one is `Raised` (the
request failed) or the part of the response the code reads: a cookie, the
decoded image, or the body text. Sleeps are trace events. No clock is
modelled.

Three behaviours of the code differ from what a reader might expect; the model
follows the code:

- When no pixel differs, `_get_code` does not report -50. `last` is still the
  integer 0, so `last[0]` raises and `try_except` turns that into False. The
  model makes this a solve failure that leaves `code` unchanged.
- `_reset_var` keeps `sf_userdata`, so the auth cookie is reused across
  cycles. A failed login returns before the reset. Login runs only while no
  auth cookie is held, and nothing clears a stored cookie, so the fields the
  reset would clear are None then (`FailedLoginLeavesNothing`,
  `FailedLoginAfterRun`).
- The guards in `_get_img` and `_sign` call `__del__`. It only returns False,
  so these stages go on without the cookies (`FetchStep`, `SubmitStep`).

## Model

| member | source | states |
|---|---|---|
| `Wrappers.TryExcept` | simpfun.py:18-29 | a decorated call yields True only when the body returned True; any exception gives False |
| `PixelSolver.ComparePixel` | simpfun.py:153-158 | two pixels match iff each of R, G and B differs by less than 60 in either direction; equal pixels always match |
| `PixelSolver.ComparePixelSymmetric` | simpfun.py:153-158 | the pixel comparison gives the same answer with its arguments swapped |
| `PixelSolver.ComparePixelReflexive` | simpfun.py:153-158 | every pixel matches itself |
| `PixelSolver.ComparePixelMeansClose` | simpfun.py:153-158 | two pixels differ iff some R, G or B channel differs by 60 or more, either way round |
| `PixelSolver.ScanBands` | simpfun.py:134-145 | the nested x-then-y loop over band 1's size ends with `first` and `last` equal to the first and last mismatch in scan order, or None when there is none |
| `PixelSolver.FirstMismatchIsEarliest` | simpfun.py:135-145 | `first` is Some(c) iff c is a mismatch and no mismatch comes before it in scan order; it is None iff no pixel differs |
| `PixelSolver.LastMismatchIsLatest` | simpfun.py:135-145 | `last` is Some(c) iff c is a mismatch and every mismatch has a smaller x, or the same x and a y no larger; it is None iff no pixel differs |
| `PixelSolver.FirstMismatch` | simpfun.py:135-145 | when present, `first` is a mismatch that no other mismatch precedes in scan order; it is absent iff no pixel of band 1 differs from band 3 |
| `PixelSolver.LastMismatch` | simpfun.py:135-145 | when present, `last` is a mismatch that no other mismatch follows in scan order; it is absent iff no pixel differs |
| `PixelSolver.Offset` | simpfun.py:135-150 | there is no offset iff no pixel differs; otherwise the offset is the x of the latest mismatch in scan order minus 50 |
| `PixelSolver.OffsetOfLatestMismatch` | simpfun.py:149 | the offset is the latest mismatch's x minus 50 |
| `PixelSolver.NoMismatchNoOffset` | simpfun.py:135-150 | there is no offset exactly when no pixel of band 1 differs from band 3 |
| `PixelSolver.IdenticalBandsHaveNoOffset` | simpfun.py:137-150 | pixel-identical bands give no offset, never -50 |
| `PixelSolver.OffsetIsRightEdge` | simpfun.py:137-150 | if all mismatches lie at or left of column b and column b has one, the offset is b - 50 (right edge 120 gives 70) |
| `Session.Initial` | simpfun.py:44-53 | a new object holds its credentials and the given auth cookie, with no session cookie, image, offset or result, and `verify` True; it is ordered (`Ordered`) |
| `Session.Reset` | simpfun.py:60-65 | `_reset_var` clears image, session cookie, offset and result and sets `verify`; credentials and auth cookie are kept |
| `Session.LoginStep` | simpfun.py:92-103 | login changes only the auth cookie; it succeeds iff both credentials are non-empty and the response carries a non-empty cookie; with both credentials and a response, the response's cookie is stored whether present, empty or absent; missing credentials or a failed request change nothing |
| `Session.FetchStep` | simpfun.py:105-120 | fetching changes only the session cookie and image; it succeeds iff the response has a non-empty `PHPSESSID` and an image that opens, whatever the auth cookie; the session cookie is stored even when opening then fails; a failed request changes nothing |
| `Session.SolveStep` | simpfun.py:122-150 | solving changes only `code`; it succeeds iff there is an image with at least one mismatch, and then `code` is that image's offset; on failure nothing changes |
| `Session.SubmitStep` | simpfun.py:160-171 | submitting changes only `result`; the response text is stored verbatim on failure too; it succeeds iff the text is neither empty nor `error` |
| `Session.Cycle` | simpfun.py:67-90 | a successful `sign` leaves an auth cookie, an offset and an accepted result; an auth cookie already held is kept; the credentials never change |
| `Session.AfterLogin` | simpfun.py:74-90 | the reset, fetch, solve and submit part of `sign`: success leaves an offset and an accepted result; auth cookie and credentials are unchanged |
| `Session.CycleShortCircuits` | simpfun.py:67-90 | `sign` runs a non-empty prefix of [login if no auth cookie, fetch, solve, submit] in that order (`RunsPrefix`); every stage before the last succeeded; `sign` returns the last stage's result and succeeds only after running all of them |
| `Session.LoginSkipped` | simpfun.py:67-74 | with an auth cookie, `sign` runs no login stage |
| `Session.SignedCycle` | simpfun.py:67-90 | after a successful `sign` the object holds an auth cookie, the fetched image and session cookie, that image's offset, and the accepted response text |
| `Session.CycleFailures` | simpfun.py:67-90 | a failed login returns before the reset and changes no image, offset, result or session cookie; a failed fetch or solve leaves no offset and no result; a failed submit still stores the response text |
| `Session.LoginNotRepeated` | simpfun.py:60-74 | after a successful `sign` the next `sign` does not log in |
| `Session.CycleKeepsOrdered` | simpfun.py:67-90 | `sign` preserves: a session cookie or an image only with an auth cookie, an offset only with an image, a result only with an offset |
| `Session.RunKeepsOrdered` | simpfun.py:236-237 | any number of `sign` calls in a row keep an ordered state ordered |
| `Session.FailedLoginLeavesNothing` | simpfun.py:67-74 | in an ordered state a failed login runs only without an auth cookie, finds no session cookie, image, offset or result, and leaves none |
| `Session.FailedLoginAfterRun` | simpfun.py:44-74 | from a new object, after any earlier cycles, a failed login leaves no session cookie, image, offset or result |
| `Session.Simpfun.constructor` | simpfun.py:44-54 | the new object's fields are `Initial` of its arguments, and they are ordered |
| `Session.Simpfun.ResetVar` | simpfun.py:60-65 | the fields afterwards are `Reset` of the fields before |
| `Session.Simpfun.Login` | simpfun.py:92-103 | the fields and the return value are those of `LoginStep` |
| `Session.Simpfun.GetImg` | simpfun.py:105-120 | the fields and the return value are those of `FetchStep` |
| `Session.Simpfun.GetCode` | simpfun.py:122-150 | running the scan loop leaves the fields and return value of `SolveStep` |
| `Session.Simpfun.SubmitCode` | simpfun.py:160-171 | the fields and the return value are those of `SubmitStep` |
| `Session.Simpfun.Sign` | simpfun.py:67-90 | calling the stage methods in order leaves the fields and return value of `Cycle` |
| `Scheduler.SendMessage` | simpfun.py:34-40 | a send is delivered iff the gateway answered with `retcode` 0; any exception means not delivered |
| `Scheduler.Attempts` | simpfun.py:239-248 | the send phase from attempt n + 1 on starts with a send when an attempt is left, has at most two events per attempt left, and holds only sends of the result and short sleeps |
| `Scheduler.Iteration` | simpfun.py:236-253 | a failed `sign` gives exactly one short sleep; a successful one starts with a send, ends with the long sleep, has between 2 and 7 events and no long sleep before the end |
| `Scheduler.SendsStopAtFirstDelivery` | simpfun.py:239-248 | if attempt i + 1 is the first delivered, the attempts are i failed sends, each followed by a short sleep, then one send |
| `Scheduler.SendsExhausted` | simpfun.py:239-248 | three undelivered sends give three send-and-sleep pairs and no fourth attempt |
| `Scheduler.FailuresCount` | simpfun.py:244-248 | k failed attempts hold k sends and k short sleeps and no long sleep |
| `Scheduler.AttemptsCount` | simpfun.py:239-248 | the send phase makes between one and three attempts and has no long sleep |
| `Scheduler.IterationShape` | simpfun.py:236-253 | a failed `sign` gives exactly one short sleep; a successful one gives one to three sends and exactly one long sleep, at the end |
| `Scheduler.FailTwiceThenSucceed` | simpfun.py:236-253 | two failed cycles and one whose first send is delivered give sleep 10, sleep 10, send, sleep 10800 |
| `Scheduler.RunIteration` | simpfun.py:236-253 | the loop body with its attempt counter produces exactly the events of `Iteration` |
| `Scheduler.LoopStep` | simpfun.py:236-253 | one loop pass leaves the object as `Cycle` does; on success it relays the accepted response text as `Iteration` says, otherwise it sleeps the short interval once |

## Left out

- HTTP requests, cookie jars and TLS: each response is an input value (cookie present or absent, body text, parsed `retcode`, or an exception). What the server does with the cookies and the `tn_r` parameter is outside the model.
- Image decoding and cropping: `Image.open` is a decoded image or a failure. `Image.open` reads only the header, and the pixel data is decoded at `load()` in `_get_code` (simpfun.py:139). So a body whose header opens but whose data is corrupt passes `_get_img` and then fails in `_get_code`. The model counts that case as a fetch failure that leaves `img` unchanged. Band 1 starts at row 0. Band 1's height and the row where band 3 starts (`band1Height`, `band3Start`) are given with the image, because the library rounds the fractional crop bounds. The model assumes band 3 is at least as tall as band 1. Palette and greyscale images, whose pixels are not triples, are not modelled.
- Scheduler.SendMessage: `retcode` is taken as an integer or absent. In Python, JSON `false` or `0.0` also compare equal to 0, and this is not modelled.
- Credentials: `username` and `password` are strings, and empty means falsy. The integer the configuration code can store there is not modelled.
- Logging, the debug-only display of bands (simpfun.py:130-133, 146-148) and `traceback.print_exc`.
- The script's start-up (simpfun.py:180-235): arguments, the YAML configuration, prompts, starting go-cqhttp, the first `login` and `exit`.
- Real time: sleeps are `Sleep` events. Only one pass of the endless loop is modelled. `FailTwiceThenSucceed` chains three passes.
- The user interrupt that `try_except` re-raises: the model has no interrupts.
- `__del__` only returns False. It is the False that `sign` returns after a failed stage.
- The `headers` field is not modelled, because no stage's outcome depends on it.
