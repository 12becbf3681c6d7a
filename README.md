# Voice-intent translation of the camera webhook

This project models, in Dafny, the request handling of `server.py`: the
variant of the voice-assistant webhook that forwards camera commands to a
remote controller (a Raspberry Pi) over HTTP. An Alexa request envelope
comes in. The webhook either answers directly (welcome, "didn't
understand", session end, HTTP 400, HTTP 500), or it reads the intent's
camera slots, builds an `{"action", "cameras"}` command, POSTs it to
`<address>/command`, and speaks a confirmation, a clarification prompt or
a generic error.

Files:

- `wrappers.dfy`: `Option`.
- `pytext.dfy` (module `PyText`): the Python built-ins the handlers rely
  on. `int()` of a str becomes `ParseInt`. It strips, at either end, the
  ASCII characters tab, line feed, vertical tab, form feed, carriage
  return and space, and the non-ASCII characters `str.isspace` accepts
  (not the ASCII separators U+001C to U+001F). It allows one sign, and allows ASCII digits with single underscores between
  digits. `str()` of an int becomes `IntToString`, and `str.join` becomes
  `Join`.
- `server.py` is modelled in `server.dfy` (module `AlexaServer`):
  - the envelope and the outcome as datatypes;
  - the slot reading `ReadSelection`, a method that grows the camera list
    one slot at a time, as the source does;
  - the handlers: one method, `HandleCameraIntent`, parameterised by
    `Action`, because `handle_open_camera` and `handle_close_camera`
    differ only in the verb, the prompt and the "all" payload. It is
    proved equal to the function `CameraIntentOutcome`;
  - the address guard `SendCommandToPi`;
  - the dispatch function `AlexaEndpoint`.
- `properties.dfy` (module `AlexaServerProperties`): the lemmas that state
  the webhook's promises. It also holds `ReadCameraList`, an inverse of the
  spoken camera list: it reads "1 and 2" back as `[1, 2]`.

An `Outcome` records three things: the response, the command that was
built (if any), and the POST that was actually issued (if any). So "no
command is sent" is a statement about the outcome. The network's answer
to the POST is a parameter (`RemoteResult`). The configured address is a
parameter (`Option<string>`).

A key that the code indexes without checking raises `KeyError`:
`request.type`, `request.intent` and `intent.name` in `alexa_endpoint`.
The outer handler turns that into a 500 whose body is `str(e)`, for
example `'type'`. The model gives `ServerError` with that text. Inside
the handlers, a missing `slots` object or a slot value rejected by
`int()` is caught by the handler itself. The answer is then the generic
error speech, with the session ended.

Three behaviours of `server.py` worth stating plainly:

- Only `OpenCameraIntent` and `CloseCameraIntent` are handled. Any other
  intent name gets the "didn't understand" answer.
- Camera numbers are passed on unchecked, duplicates included.
- Open-all sends the fixed list `[1, 2, 3]`.

## Model

| member | source | states |
|---|---|---|
| `AlexaServer.AlexaEndpoint` | server.py:36-94 | Every answer is coherent: a command goes only with a speech answer that ends the session, and a POST always carries exactly that command. Because of coherence, a command only comes with HTTP status 200; the contract states this consequence separately. |
| `AlexaServer.Status` | server.py:43-90 | Speech and session-end answers are 200. Invalid-envelope answers, and only those, are 400. |
| `AlexaServer.SendCommandToPi` | server.py:96-107 | A POST is issued exactly when the address is set and non-empty. Without one, the reply is the "RASPBERRY_PI_ADDRESS not configured" error. With one, the POST goes to `<address>/command` and carries the command. The reply is the remote's JSON, or "Failed to send command to Raspberry Pi: " followed by the exception text. |
| `AlexaServer.FilledValues` | server.py:119-129 | It gives at most one value per slot name. It is empty exactly when no named slot is present with a non-empty value. |
| `AlexaServer.NumberedValues` | server.py:119-129 | The numbered slots are read as CameraNumber, then FirstCamera, then SecondCamera. Each one contributes its value only when it is filled. |
| `AlexaServer.ParseEachSpec` | server.py:121-129 | Converting the slot values fails exactly when `int()` rejects one of them. Otherwise each camera is the `int()` of the value at the same position. |
| `AlexaServer.ReadSelection` | server.py:111-129 | The method that sets the AllCameras flag and appends slot by slot returns exactly the selection `SlotSelection` defines: the AllCameras flag and the converted numbered values in order, or failure at a rejected value. |
| `AlexaServer.CameraIntentOutcome` | server.py:109-185 | The answer is always speech and is coherent. A built command has the handler's action. A POST happens exactly when a command is built and the address is configured. |
| `AlexaServer.HandleCameraIntent` | server.py:187-263 | The imperative handler, with its early returns for missing slots, a rejected value and an empty selection, gives exactly `CameraIntentOutcome`. It serves both the close handler (server.py:187-263) and the open handler (server.py:109-185). |
| `PyText.ParseIntOfIntToString` | server.py:155 | `int(str(n)) == n` for every integer: the number spoken for a camera reads back as that camera. |
| `PyText.ParseIntNeedsDigit` | server.py:121 | `int()` rejects any text without a digit, such as "", "?" or "all". |
| `PyText.ParseIntAcceptsPadding` | server.py:121 | `int()` accepts surrounding whitespace and leading zeros in a slot value: " 07\n" gives 7. |
| `PyText.ParseIntAcceptsSignAndUnderscore` | server.py:125 | `int()` accepts a sign and single underscores between digits: "-3" gives -3 and "1_0" gives 10. |
| `PyText.ParseIntRejects` | server.py:129 | `int()` rejects a doubled underscore, a decimal point, a space after the sign and a leading U+001C control character (which `int()` does not strip), so such a slot value leads to the error answer. |
| `AlexaServerProperties.SelectionCameras` | server.py:119-129 | The camera list has one entry per filled numbered slot, in CameraNumber, FirstCamera, SecondCamera order, each the `int()` of that slot's value. So it never has more than three entries. The AllCameras flag is exactly "AllCameras is filled". |
| `AlexaServerProperties.SelectionFails` | server.py:120-129 | Reading fails exactly when some filled numbered slot holds a value `int()` rejects, whether or not AllCameras is filled. |
| `AlexaServerProperties.DuplicatesKept` | server.py:120-125 | CameraNumber "2" with FirstCamera "2" gives the camera list `[2, 2]`: duplicates are kept. |
| `AlexaServerProperties.ClarifyExactlyWhenNothingSelected` | server.py:131-141 | The clarification prompt, with the session kept open, is given if and only if the slots exist, no numbered slot is filled and AllCameras is not filled. When it is given, no command is built and nothing is posted. |
| `AlexaServerProperties.ErrorExactlyWhenUnreadable` | server.py:174-185 | The generic error speech, with the session ended, is given if and only if the slots object is missing or a filled numbered value is not an integer. When it is given, no command is built and nothing is posted. |
| `AlexaServerProperties.AllCamerasOverrides` | server.py:144-149 | With AllCameras filled, the numbered slots are ignored once they parse. Open sends `[1, 2, 3]` and says "Opening all cameras". Close sends `["all"]` and says "Closing all cameras". |
| `AlexaServerProperties.NumberedCommand` | server.py:150-156 | Without AllCameras, the command's camera list is the extracted list, element by element. The speech is "Opening camera " or "Closing camera " followed by the numbers joined with " and ". That text reads back as exactly those numbers, in order. |
| `AlexaServerProperties.ReadCameraListText` | server.py:155 | Reading the joined camera list back gives the list it was made from, so the speech names exactly the commanded cameras, in order. |
| `AlexaServerProperties.SingleCameraHasNoConjunction` | server.py:155 | A single camera is spoken as its number alone, and the text does not contain " and ". |
| `AlexaServerProperties.ReplyDoesNotMatter` | server.py:159-172 | The answer, the command and the POST do not depend on what the controller returned. |
| `AlexaServerProperties.OpenPairScenario` | server.py:150-172 | FirstCamera "1" and SecondCamera "2" on the open intent send `[1, 2]` and say "Opening camera 1 and 2". |
| `AlexaServerProperties.MissingRequestRefused` | server.py:42-43 | An envelope without "request" gets a 400 "Invalid request format", with no command. |
| `AlexaServerProperties.LaunchWelcomes` | server.py:49-59 | A LaunchRequest gets the welcome speech, the session stays open, and no command is built. |
| `AlexaServerProperties.CameraIntentsDelegate` | server.py:62-68 | OpenCameraIntent is answered by the open handler and CloseCameraIntent by the close handler. |
| `AlexaServerProperties.UnknownIntentNotUnderstood` | server.py:69-79 | Any other intent name gets the "didn't understand" speech, the session stays open, and no command is built. |
| `AlexaServerProperties.SessionEndedCloses` | server.py:82-88 | A SessionEndedRequest ends the session with no speech and no command. |
| `AlexaServerProperties.BadRequestExactly` | server.py:42-90 | The answer is 400 if and only if "request" is missing or its type is not LaunchRequest, IntentRequest or SessionEndedRequest. |
| `AlexaServerProperties.CommandsOnlyFromCameraIntents` | server.py:62-68 | A command is built only for an IntentRequest that names OpenCameraIntent or CloseCameraIntent. |

## Left out

- Flask routing, `jsonify` and the JSON encoding of responses (server.py:2, 15-21). Responses are the abstract `Response` kinds, and the HTTP status is `Status`.
- `test_pi_connection` (server.py:23-33): network I/O only.
- The network body of `send_command_to_pi` (server.py:102-107). Its reply is the `RemoteResult` parameter, either a JSON text or an exception message.
- Logging, and reading `RASPBERRY_PI_ADDRESS` and `PORT` from the environment (server.py:9, 13, 265-267). The address is a parameter.
- The outer 500 for arbitrary Python exceptions (server.py:92-94). Only the `KeyError`s of missing `type`, `intent` and `name` are modelled. The envelope is assumed to be a JSON object whose `request`, `intent`, `slots` and slot entries are objects, and whose type, name and slot values are strings. A body that is not JSON, or has other value shapes, is not modelled.
- `PyText.ParseInt`: does not accept Unicode decimal digits other than ASCII 0-9, which Python's `int()` also accepts. It also does not model the interpreter's limit on the number of digits in a converted string. Both are outside what the voice service sends as a camera number.
- Concurrent requests: each request is modelled on its own, because the module holds no shared mutable state.
