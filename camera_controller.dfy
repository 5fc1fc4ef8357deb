/**
 * The camera wrapper: file naming for rotation photos, the path join, and
 * the lifecycle of the lazily created camera handle. The camera library is
 * replaced by outcome parameters; the files captured are kept as a log.
 */
module Camera {
  import opened Optional
  import Decimal

  const PhotosDir := "photos"
  const RotationPrefix := "rotation_"
  const PhotoSuffix := ".jpg"

  /** `f"rotation_{n:03d}.jpg"` */
  function RotationPhotoName(n: int): (name: string)
    ensures |name| >= |RotationPrefix| + 3 + |PhotoSuffix|
    ensures name[..|RotationPrefix|] == RotationPrefix
    ensures name[|name| - |PhotoSuffix|..] == PhotoSuffix
  {
    RotationPrefix + Decimal.ZeroPadded(n, 3) + PhotoSuffix
  }

  /** Reads the rotation number back out of a photo name. */
  function RotationNumber(name: string): Option<int>
  {
    if |name| >= |RotationPrefix| + |PhotoSuffix|
       && name[..|RotationPrefix|] == RotationPrefix
       && name[|name| - |PhotoSuffix|..] == PhotoSuffix
    then Decimal.ParseInt(name[|RotationPrefix|..|name| - |PhotoSuffix|])
    else None
  }

  /** The name of rotation `n` names that rotation and no other; 0 to 999 give exactly three digits. */
  lemma RotationNameRoundTrip(n: int)
    ensures RotationNumber(RotationPhotoName(n)) == Some(n)
    ensures 0 <= n < 1000 ==> |RotationPhotoName(n)| == |RotationPrefix| + 3 + |PhotoSuffix|
  {
    var padded := Decimal.ZeroPadded(n, 3);
    var name := RotationPhotoName(n);
    assert name[|RotationPrefix|..|name| - |PhotoSuffix|] == padded;
    if 0 <= n < 1000 {
      assert |Decimal.IntToText(n)| <= 3 by {
        if n >= 10 {
          assert Decimal.NatToDecimal(n) == Decimal.NatToDecimal(n / 10) + [Decimal.DigitChar(n % 10)];
        }
      }
    }
  }

  /** Python's `os.path.join(dir, name)` on POSIX. */
  function JoinPath(dir: string, name: string): (path: string)
    ensures |path| >= |name| && path[|path| - |name|..] == name
    ensures |name| > 0 && name[0] == '/' ==> path == name
    ensures (|name| == 0 || name[0] != '/') ==>
      |dir| + |name| <= |path| <= |dir| + 1 + |name| && path[..|dir|] == dir
    ensures |path| == |dir| + 1 + |name| ==> path[|dir|] == '/'
    ensures (|name| == 0 || name[0] != '/') ==>
      (|path| == |dir| + |name| <==> dir == "" || dir[|dir| - 1] == '/')
  {
    if |name| > 0 && name[0] == '/' then name
    else if dir == "" || dir[|dir| - 1] == '/' then dir + name
    else dir + "/" + name
  }

  /** What `Picamera2()`, `configure` and `start` do when the camera is initialised. */
  datatype InitOutcome =
    | Started            // all three succeed
    | ConstructionFails  // `Picamera2()` raises: the field is not assigned
    | SetupFails         // `configure` or `start` raises after the field was assigned

  /** The Picamera2 object held in `self.picam2`. */
  datatype Handle = Handle(started: bool)

  /** The handle left behind by an initialisation attempt. */
  function AfterInit(before: Option<Handle>, outcome: InitOutcome): Option<Handle>
  {
    match outcome
    case Started => Some(Handle(true))
    case ConstructionFails => before
    case SetupFails => Some(Handle(false))
  }

  /** The file name used by `take_photo`: the given one, or `photo_<stamp>.jpg` when none or an empty one is given. */
  function ChosenName(photoName: Option<string>, stamp: string): (name: string)
    ensures name != ""
    ensures photoName.Some? && photoName.value != "" ==> name == photoName.value
    ensures photoName.None? || photoName.value == "" ==>
      |name| == 6 + |stamp| + |PhotoSuffix| && name[..6] == "photo_" && name[|name| - |PhotoSuffix|..] == PhotoSuffix && name[6..|name| - |PhotoSuffix|] == stamp
  {
    if photoName.None? || photoName.value == "" then "photo_" + stamp + PhotoSuffix else photoName.value
  }

  class CameraController {
    const cameraIndex: int
    const photosDir: string
    /** `self.picam2`. */
    var picam2: Option<Handle>
    /** Paths of the photos captured so far, in order. */
    var saved: seq<string>

    constructor (cameraIndex: int := 0)
      ensures this.cameraIndex == cameraIndex && photosDir == PhotosDir
      ensures picam2 == None && saved == []
    {
      this.cameraIndex := cameraIndex;
      photosDir := PhotosDir;
      picam2 := None;
      saved := [];
    }

    method InitializeCamera(outcome: InitOutcome) returns (ok: bool)
      modifies this`picam2
      ensures ok <==> outcome == Started
      ensures picam2 == AfterInit(old(picam2), outcome)
    {
      match outcome {
        case ConstructionFails =>
          ok := false;
        case SetupFails =>
          picam2 := Some(Handle(false));
          ok := false;
        case Started =>
          picam2 := Some(Handle(true));
          ok := true;
      }
    }

    /**
     * Captures one photo. The camera is initialised first only when there is
     * no handle; `captureOk` is whether `capture_file` succeeds and `stamp`
     * the current time as `take_photo` formats it.
     */
    method TakePhoto(photoName: Option<string>, init: InitOutcome, captureOk: bool, stamp: string)
      returns (path: Option<string>)
      modifies this`picam2, this`saved
      ensures picam2 == if old(picam2).Some? then old(picam2) else AfterInit(old(picam2), init)
      ensures path.Some? <==> (old(picam2).Some? || init == Started) && captureOk
      ensures path.Some? ==> path.value == JoinPath(photosDir, ChosenName(photoName, stamp))
      ensures saved == old(saved) + (if path.Some? then [path.value] else [])
    {
      if picam2.None? {
        var ok := InitializeCamera(init);
        if !ok {
          return None;
        }
      }
      var name := ChosenName(photoName, stamp);
      var p := JoinPath(photosDir, name);
      if captureOk {
        saved := saved + [p];
        path := Some(p);
      } else {
        path := None;
      }
    }

    method TakeRotationPhoto(rotationNumber: int, init: InitOutcome, captureOk: bool, stamp: string)
      returns (path: Option<string>)
      requires photosDir == PhotosDir
      modifies this`picam2, this`saved
      ensures picam2 == if old(picam2).Some? then old(picam2) else AfterInit(old(picam2), init)
      ensures path.Some? <==> (old(picam2).Some? || init == Started) && captureOk
      ensures path.Some? ==> path.value == PhotosDir + "/" + RotationPhotoName(rotationNumber)
      ensures saved == old(saved) + (if path.Some? then [path.value] else [])
    {
      path := TakePhoto(Some(RotationPhotoName(rotationNumber)), init, captureOk, stamp);
    }

    /** Drops the handle. An exception from `stop` or `close` is caught, so the handle goes either way. */
    method ReleaseCamera()
      modifies this`picam2
      ensures picam2 == None
      ensures old(picam2) == None ==> unchanged(this)
    {
      if picam2.Some? {
        picam2 := None;
      }
    }
  }
}
