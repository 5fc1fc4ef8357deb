# Rotating camera rig controller — verified model

This project models the three core pieces of a small Raspberry Pi controller for a rotating
camera rig:

- **The web front end** (`app.py`): a single shared record of the latest angle set
  (`latest_angles`: angles, timestamp, status string), the JSON intake `receive_angles`,
  the status read `get_status` and the HTML form handler `send_angles`. Modelled as the class
  `WebApp.Server`, whose fields are the record's three entries plus the module-level
  Arduino controller. The intake rejects, in this order, a body without `angles`, a list whose
  length is not 4, and the first element that is not a number in [0, 180] (reporting its
  1-based position). A rejection leaves the record untouched. An accepted set is stored with a
  timestamp *before* the Arduino is contacted and stays stored when the send fails; only the
  status tells the two outcomes apart. The form handler instead writes the record only when the
  send succeeds.
- **The motor link** (`arduino_controller.py`): `ArduinoLink.ArduinoController` holds the serial
  port (`/dev/ttyS0`, 9600 baud, timeout 1) as an optional value with an open flag, and the
  strings written to it as a log. `SendAngles` writes one plain decimal token per angle, in
  order, with no separator; a write that raises ends the call with `false`, keeping the tokens
  already written. The tokens decode back to the angles one write at a time, but the byte
  stream run together does not (`[1, 23]` and `[12, 3]` both give `123`): the device
  tells tokens apart only by the pause between writes.
- **The camera wrapper** (`camera_controller.py`): `Camera.CameraController` holds the optional
  camera handle and a log of captured paths. Rotation photos are named `rotation_NNN.jpg` with
  Python's sign-aware `03d` zero padding, and the name reads back as its rotation number.
  `TakePhoto` initialises the camera only when there is no handle. When `configure` or `start`
  raises, the already created handle stays assigned but not started. That photo fails, and the
  next call skips initialisation. `ReleaseCamera` always clears the handle.

Decimal rendering (`f"{n}"`, `f"{n:03d}"`) is shared in module `Decimal`, together with a
reference parser used to prove that both renderings lose nothing.

Dependencies that are not code are parameters:
- the Arduino's write outcomes are `failAt`, the position of the write that raises, if any;
- opening the serial device is `openOk`;
- the camera's initialisation and capture outcomes are `InitOutcome` and `captureOk`;
- `datetime.now()` is a timestamp string;
- an exception's text is `err`;
- the JSON request is an already-parsed `Payload`; its elements are `Item`s, either ints or
  other values carried with their `str()` text.

The serial link has no simulated fallback. Tokens carry no newline. These files have no clear
operation.

## Model

| member | source | states |
|---|---|---|
| `Decimal.NatToDecimal` | arduino_controller.py:38 | the decimal text of a natural number is non-empty, all digits, one digit exactly below 10, and has no leading zero unless it is "0" |
| `Decimal.IntToText` | arduino_controller.py:38 | `f"{angle}"` starts with '-' exactly for negative angles and is otherwise digits only |
| `Decimal.IntToTextRoundTrip` | arduino_controller.py:38 | the text written for an angle reads back as that angle |
| `Decimal.IntToTextInjective` | arduino_controller.py:38 | two angles with the same token are equal |
| `Decimal.ZeroPadded` | camera_controller.py:73 | `03d` formatting: the text is `Max(width, len(str(n)))` long and reads back as `n` |
| `Decimal.SignedPaddingReadsBack` | camera_controller.py:73 | any number of zeros between the sign and the digits leaves the value read back unchanged |
| `ArduinoLink.WritesDone` | arduino_controller.py:36-48 | the writes that get through number all of them exactly when the list is empty or the port is open and no write raises |
| `ArduinoLink.TokensRoundTrip` | arduino_controller.py:36-39 | decoding the per-angle writes gives back the angle list, in order |
| `ArduinoLink.StreamHasNoDelimiters` | arduino_controller.py:38-39 | the concatenated writes contain only digits and minus signs: no separator, no newline |
| `ArduinoLink.StreamIsAmbiguous` | arduino_controller.py:36-39 | two different four-angle lists with every angle in [0, 180] put the same characters on the wire |
| `ArduinoLink.ArduinoController.IsConnected` | arduino_controller.py:27-29 | defined as: a port object exists and it is open; the facts about it are proved in the constructor (true exactly when opening succeeded) and in `Close` (false afterwards) |
| `ArduinoLink.ArduinoController.constructor` | arduino_controller.py:11-29 | port `/dev/ttyS0`, baud 9600, timeout 1; the serial object exists and is open exactly when opening succeeded, so `is_connected` holds exactly then; nothing written |
| `ArduinoLink.ArduinoController.SendAngles` | arduino_controller.py:31-48 | one write per angle in list order, each the angle's decimal text; result true iff every write succeeded; on failure the writes before the failing one stay and no later one happens; a missing or closed port fails at the first write |
| `ArduinoLink.ArduinoController.Close` | arduino_controller.py:50-54 | afterwards the port is not connected; an open port is closed and keeps its settings; a missing or closed port is left as it was, so a second close changes nothing |
| `Camera.RotationPhotoName` | camera_controller.py:71-73 | the name is `rotation_`, at least three characters of number, `.jpg` |
| `Camera.RotationNameRoundTrip` | camera_controller.py:73 | the rotation number reads back from its photo name; 0 to 999 are padded to exactly three digits |
| `Camera.JoinPath` | camera_controller.py:60 | the joined path ends with the file name; an absolute name replaces the directory; otherwise the path starts with the directory, and a single '/' is inserted between them exactly when the directory is non-empty and does not already end in '/' |
| `Camera.ChosenName` | camera_controller.py:56-58 | a given non-empty name is used as is; no name or an empty one gives `photo_`, the timestamp, `.jpg`; the name is never empty |
| `Camera.CameraController.constructor` | camera_controller.py:13-17 | camera index defaulting to 0, no camera handle, photos directory `photos`, nothing captured |
| `Camera.CameraController.InitializeCamera` | camera_controller.py:25-46 | succeeds only when construction, configuration and start all succeed; a failed construction leaves the handle as it was, a failed setup leaves a handle that is not started |
| `Camera.CameraController.TakePhoto` | camera_controller.py:48-69 | initialises only when there is no handle; returns `photos_dir` joined with the given name (or the timestamp name when none or an empty one is given) exactly when a handle was available or created and the capture succeeded; a failed initialisation or capture returns none and captures nothing; an existing handle is kept |
| `Camera.CameraController.TakeRotationPhoto` | camera_controller.py:71-74 | the photo is saved as `photos/rotation_NNN.jpg`, with the same success and handle rules as `TakePhoto` |
| `Camera.CameraController.ReleaseCamera` | camera_controller.py:76-86 | the handle is absent afterwards whatever stop and close did; with no handle nothing changes, so releasing twice is the same as once |
| `WebApp.ErrorText` | app.py:28-62 | the `error` text of each rejection; a bad element's text starts with `角度` followed by its 1-based position, which reads back; an exception's text is passed through unchanged |
| `WebApp.ConvertForm` | app.py:73-78 | the form's four fields become a four-element list in field order, or none as soon as one field does not convert |
| `WebApp.FindInvalid` | app.py:38-40 | returns none iff every element is a number in [0, 180]; otherwise the position of the first element that is not |
| `WebApp.Server.constructor` | app.py:11-18 | the record starts with no angles, no timestamp and status `等待数据`; the Arduino controller is created with it |
| `WebApp.Server.ReceiveAngles` | app.py:25-62 | rejections in order (no `angles` field, count not 4, first invalid element by 1-based position) leave the record and the port untouched; an exception changes only the status, to `错误: ` followed by the same text the reply carries as its error; acceptance stores exactly the submitted values and a timestamp, writes their tokens, and sets status `发送成功` with success iff every write succeeded, otherwise `发送失败` with an Arduino error while the angles stay stored; only validated sets are ever stored |
| `WebApp.Server.GetStatus` | app.py:64-67 | returns the stored angles, timestamp and status unchanged |
| `WebApp.Server.SendAnglesForm` | app.py:69-100 | a field that does not convert, or any value outside [0, 180], rejects without touching record or port; otherwise the angles are sent and the record becomes those angles, a timestamp and `手动发送成功` only if the send succeeded, a failed send leaving the record as it was |
| `WebApp.AcceptThenRead` | app.py:43-67 | a valid set posted and then read back yields the same four values, a non-null timestamp and one of the two send statuses |
| `WebApp.RejectOutOfRangeThird` | app.py:38-40 | `[90, 45, 181, 60]` is rejected naming position 3 and leaves the record unchanged |

## Left out

- Flask routing, the index page, `render_template`, `jsonify` and `redirect`: requests are already-parsed values and responses are datatypes.
- `datetime.now()` and the timestamp formats: timestamps are opaque strings passed in.
- Real serial I/O and the `time.sleep` delays: the port is a log of written strings. The pause between writes, which is what actually separates tokens for the device, is therefore not modelled.
- `_connect` (arduino_controller.py:19-25) has a `try` without an `except`. The model takes its evident intent: the port object is set only when opening succeeds, given as `openOk`.
- `__del__` of both controllers: finalisation by the garbage collector is not modelled.
- Picamera2 configuration, start, capture, stop and close: foreign library calls, replaced by outcome parameters. An exception from stop or close has no effect on state, so `ReleaseCamera` takes no parameter for it.
- Creating the photos directory (`_ensure_photos_dir`): filesystem I/O.
- Float angles, and Python accepting `True`/`False` as numbers: angles are integers.
- Concurrent requests racing on the shared record: operations are sequential.
- The transient status `正在发送...` set while the Arduino is contacted: it is assigned in `ReceiveAngles` and is overwritten before the call returns, so no contract mentions it.
- Console logging (`print`).
- The rotation sequencer, clearing the angles and the camera streaming endpoints: that code is not part of this model.
- test_connection.py and teammate_sender.py: HTTP client scripts; the sender's range check is the same rule as `WebApp.FindInvalid`.
