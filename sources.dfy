/**
 * The pure parts of source acquisition: which enumerated devices become
 * camera choices, which camera the request names, which files are video,
 * and which dropped file is taken.
 */
module Sources {
  import opened Wrappers
  import opened Text

  /** The camera the panel asks for when the user has not chosen one. */
  const DefaultCamera: string := "default-camera"

  /** One `MediaDeviceInfo`, as far as the panel reads it. */
  datatype MediaDevice = MediaDevice(kind: string, deviceId: string, labelText: string)

  /** One entry of the camera list the panel offers. */
  datatype CameraOption = CameraOption(deviceId: string, labelText: string)

  /** A `File`, as far as the panel reads it; `mimeType` is `file.type`. */
  datatype MediaFile = MediaFile(name: string, mimeType: string)

  /** `device.kind === 'videoinput'` and `device.deviceId && device.deviceId.trim() !== ''` */
  predicate IsUsableCamera(d: MediaDevice) {
    d.kind == "videoinput" && d.deviceId != "" && Trim(d.deviceId) != ""
  }

  /** The two `filter` steps of the camera enumeration. */
  function UsableCameras(devices: seq<MediaDevice>): (r: seq<MediaDevice>)
    ensures |r| <= |devices|
    ensures forall i :: 0 <= i < |r| ==> IsUsableCamera(r[i]) && r[i] in devices
    ensures forall d :: d in devices && IsUsableCamera(d) ==> d in r
  {
    if devices == [] then []
    else (if IsUsableCamera(devices[0]) then [devices[0]] else []) + UsableCameras(devices[1..])
  }

  /** The filter distributes over concatenation, so the kept devices keep their order. */
  lemma {:induction false} UsableCamerasAppend(a: seq<MediaDevice>, b: seq<MediaDevice>)
    ensures UsableCameras(a + b) == UsableCameras(a) + UsableCameras(b)
  {
    if a == [] {
      assert a + b == b;
    } else {
      assert (a + b)[1..] == a[1..] + b;
      UsableCamerasAppend(a[1..], b);
    }
  }

  /** One device is kept exactly when it is a usable camera. */
  lemma UsableCamerasSingle(d: MediaDevice)
    ensures UsableCameras([d]) == if IsUsableCamera(d) then [d] else []
  {
    assert [d][1..] == [];
  }

  /** The `map` step: positions count from `start` in the filtered list. */
  function LabelCameras(cams: seq<MediaDevice>, start: nat): (r: seq<CameraOption>)
    ensures |r| == |cams|
    ensures forall i :: 0 <= i < |r| ==>
      && r[i].deviceId == (if cams[i].deviceId != "" then cams[i].deviceId
                           else "camera-fallback-" + NatToString(start + i))
      && r[i].labelText == (if cams[i].labelText != "" then cams[i].labelText
                            else "Camera " + NatToString(start + i + 1))
  {
    if cams == [] then []
    else
      [CameraOption(
        if cams[0].deviceId != "" then cams[0].deviceId else "camera-fallback-" + NatToString(start),
        if cams[0].labelText != "" then cams[0].labelText else "Camera " + NatToString(start + 1))]
      + LabelCameras(cams[1..], start + 1)
  }

  /** The camera list built from an enumeration. */
  function CameraOptions(devices: seq<MediaDevice>): (r: seq<CameraOption>)
    ensures |r| == |UsableCameras(devices)|
    ensures forall i :: 0 <= i < |r| ==> r[i].deviceId == UsableCameras(devices)[i].deviceId && r[i].labelText != ""
  {
    LabelCameras(UsableCameras(devices), 0)
  }

  /**
   * Every offered camera is a usable video input of the enumeration, keeps
   * its device id (the `camera-fallback-` name is never needed) and has a
   * non-empty label: its own, or `Camera <position>` counting from 1.
   */
  lemma CameraOptionsFaithful(devices: seq<MediaDevice>)
    ensures var u := UsableCameras(devices);
      var r := CameraOptions(devices);
      |r| == |u| &&
      forall i :: 0 <= i < |r| ==>
        && r[i].deviceId == u[i].deviceId && !IsBlank(r[i].deviceId)
        && r[i].labelText != ""
        && (u[i].labelText == "" ==> r[i].labelText == "Camera " + NatToString(i + 1))
        && (u[i].labelText != "" ==> r[i].labelText == u[i].labelText)
  {
    var u := UsableCameras(devices);
    forall i | 0 <= i < |u| ensures !IsBlank(u[i].deviceId) {
      TrimEmptyIffBlank(u[i].deviceId);
    }
  }

  /** The camera selected once the list is known: the first one, if the user is still on the default. */
  function InitialSelection(options: seq<CameraOption>, selected: string): (r: string)
    ensures r != selected ==> selected == DefaultCamera && |options| > 0 && r == options[0].deviceId
    ensures selected == DefaultCamera && |options| > 0 ==> r == options[0].deviceId
  {
    if |options| > 0 && selected == DefaultCamera then options[0].deviceId else selected
  }

  /** The `deviceId` constraint of the camera request: none for the default camera. */
  function DeviceConstraint(selected: string): (r: Option<string>)
    ensures r.None? <==> selected == DefaultCamera
    ensures r.Some? ==> r.value == selected
  {
    if selected != DefaultCamera then Some(selected) else None
  }

  /** `file.type.startsWith('video/')` */
  predicate IsVideoFile(f: MediaFile) {
    StartsWith(f.mimeType, "video/")
  }

  /** `files.find(file => file.type.startsWith('video/'))`, as a position. */
  function FirstVideoFile(files: seq<MediaFile>): (r: Option<nat>)
    ensures r.None? <==> forall i :: 0 <= i < |files| ==> !IsVideoFile(files[i])
    ensures r.Some? ==> r.value < |files| && IsVideoFile(files[r.value])
    ensures r.Some? ==> forall j :: 0 <= j < r.value ==> !IsVideoFile(files[j])
  {
    if files == [] then None
    else if IsVideoFile(files[0]) then Some(0)
    else match FirstVideoFile(files[1..])
      case None => None
      case Some(k) => Some(k + 1)
  }
}
