# ImageOffloader, modelled in Dafny

A model of the `ImageOffloader` Unity component. It receives augmented-reality
camera frames and converts the latest camera image into an RGBA32 texture under
a selectable mirroring transformation. The model covers two parts of it:

- the **transformation selector**: the field `m_Transformation`, which starts at
  `MirrorY`, and `CycleTransformation`, which moves it along
  `None → MirrorX → MirrorY → MirrorX|MirrorY → None`. A catch-all arm sends every
  other value to `None`.
- the **frame update** `UpdateCameraImage`. It tries to acquire the latest camera
  image and returns early if that fails. Otherwise it writes the info label and
  reallocates the texture only when that texture is missing or has a different
  size. It then converts the image with the current transformation into a buffer
  of the texture's raw-data length, and disposes the image in a `finally`.

Files:

- `transformations.dfy` (module `Transformations`): the flags type, the
  transition `Next`, its iteration `Iterate`, and the lemmas about the cycle.
- `camera.dfy` (module `Camera`): the framework types the component relies on.
  The native image handle `CpuImage` counts its releases and logs each `Convert`
  call. `Texture` has a size and a format that fix its raw-data length. The
  `CameraManager` acquisition may fail. The manager keeps a ghost record of every
  handle it hands out, so contracts speak about the image that was actually acquired.
- `image_offloader.dfy` (module `Offloader`): the component as a class whose
  fields are the transformation, the two labels and the texture.

`XRCpuImage.Transformation` is the framework's flags enum over a 32-bit integer:
`None = 0`, `MirrorX = 1`, `MirrorY = 2`. These values come from the AR framework
and are not part of the repository; they are modelled as `bv32`. The proofs use
only the fact that they are distinct single flags.

Two foreign operations are nondeterministic in the model:
`CameraManager.TryAcquireLatestCpuImage` (it may hand out no image, or an image
of any size) and `CpuImage.Convert` (it may throw). Whatever these operations
do, the frame update's contract holds. `Convert` requires that the handle is
still held. Because `UpdateCameraImage` verifies, the component never converts
an image after releasing it.

An info label that is not wired up is modelled as a real exit path. The write at
Assets/ImageOffloader.cs:108 throws before the `try` starts, so the acquired image is never disposed (see
"## Findings"). `UpdateCameraImageReleasing` is the corrected update, in which
the `finally` covers that write as well.

## Model

| member | source | states |
|---|---|---|
| `Transformations.Next` | Assets/ImageOffloader.cs:68-74 | The transition is total: every value, inside the cycle or not, goes to one of the four cycle states, and no value is its own successor |
| `Transformations.NextArms` | Assets/ImageOffloader.cs:70-72 | `None` goes to `MirrorX`, `MirrorX` to `MirrorY`, `MirrorY` to `MirrorX \| MirrorY` |
| `Transformations.NextCatchAll` | Assets/ImageOffloader.cs:73 | Every value other than `None`, `MirrorX` and `MirrorY` goes to `None`; this includes `MirrorX \| MirrorY` |
| `Transformations.NextAlongCycle` | Assets/ImageOffloader.cs:68-74 | On the four cycle states, the switch is the lookup table "next entry of `[None, MirrorX, MirrorY, MirrorX\|MirrorY]`, wrapping around" |
| `Transformations.CycleIsMirrorCombinations` | Assets/ImageOffloader.cs:72 | A value is in the cycle exactly when it has no bits other than the two mirror flags; the four cycle entries are pairwise distinct |
| `Transformations.IndexOf` | Assets/ImageOffloader.cs:68-74 | Every cycle state has a position in the cycle |
| `Transformations.IterateFromCycle` | Assets/ImageOffloader.cs:68-74 | `n` presses starting at position `i` of the cycle land at position `(i + n) mod 4` |
| `Transformations.IterateStep` | Assets/ImageOffloader.cs:66-74 | Pressing `n + 1` times is pressing `n` times and then applying the transition once more |
| `Transformations.NeverStuck` | Assets/ImageOffloader.cs:68-74 | Every press changes the selected value |
| `Transformations.EntersCycle` | Assets/ImageOffloader.cs:73 | From any starting value, after one or more presses the value is one of the four cycle states |
| `Transformations.Period` | Assets/ImageOffloader.cs:68-74 | From a cycle state, four presses return to the same state, at every point of the sequence |
| `Transformations.ExactPeriod` | Assets/ImageOffloader.cs:68-74 | From a cycle state, one, two or three presses never return to it, so the period is exactly four |
| `Transformations.EventuallyPeriodic` | Assets/ImageOffloader.cs:68-74 | From any starting value, the selections repeat with period four from the first press on |
| `Transformations.InitialSequence` | Assets/ImageOffloader.cs:61-74 | From the initial `MirrorY`, the first press gives `MirrorX \| MirrorY` and the second gives `None` |
| `Camera.CpuImage.Convert` | Assets/ImageOffloader.cs:136 | A conversion is only allowed on a handle that is still held (`Held`: not yet disposed, the state the comment at :100-101 asks to end by disposal); it records its parameters and destination length, and it may throw |
| `Camera.CpuImage.Dispose` | Assets/ImageOffloader.cs:142 | Each call releases the handle once more |
| `Camera.Texture.constructor` | Assets/ImageOffloader.cs:124 | A new texture has the requested width, height and format |
| `Camera.Texture.RawDataLength` | Assets/ImageOffloader.cs:133 | The raw data of an RGBA32 texture is four bytes per pixel: width × height × 4 |
| `Camera.CameraManager.TryAcquireLatestCpuImage` | Assets/ImageOffloader.cs:102 | Acquisition either fails and hands out nothing, or hands out a new handle that is still held and has no conversions; the manager records each handle it hands out |
| `Offloader.Fits` | Assets/ImageOffloader.cs:122 | The negation of the reallocation condition: the texture exists and has the image's width and height, so its raw data holds exactly the image's pixels |
| `Offloader.ImageOffloader.constructor` | Assets/ImageOffloader.cs:61 | A new component selects `MirrorY`, has no texture, and its labels have not been written |
| `Offloader.ImageOffloader.CycleTransformation` | Assets/ImageOffloader.cs:66-80 | The field becomes the transition of its old value; the button label shows the new value when there is a button and is untouched otherwise; the texture and the info label are unchanged |
| `Offloader.ImageOffloader.ConvertIntoTexture` | Assets/ImageOffloader.cs:118-136 | The texture ends up fitting the image. It is the old texture when that one fitted and a new one otherwise. Exactly one conversion happens, with the current transformation, RGBA32, and a destination of the texture's raw-data length (width × height × 4). The handle is not released |
| `Offloader.ImageOffloader.UpdateCameraImage` | Assets/ImageOffloader.cs:98-152 | If acquisition fails, the manager hands out nothing and nothing changes. Otherwise the image in the contract is the one the manager handed out. Without an info label the method throws at the label write: nothing changes and the image is neither converted nor disposed. With the label: it shows the image, the texture and the conversion are as in `ConvertIntoTexture`, and the image is disposed exactly once whether or not the conversion threw. The transformation is unchanged |
| `Offloader.ImageOffloader.UpdateCameraImageReleasing` | Assets/ImageOffloader.cs:98-152 | The same frame update with the `try` opened right after acquisition. Every image that is acquired is disposed exactly once, including when the info label is missing |
| `Offloader.CycleTwiceFromStart` | Assets/ImageOffloader.cs:61-80 | A new component with a button, pressed twice, selects `None` and its button shows `None`; its texture and info label are untouched. The intermediate `MirrorX \| MirrorY` is stated by `InitialSequence` |
| `Offloader.MissingInfoLabelLeaks` | Assets/ImageOffloader.cs:102-110 | With no info label wired up, the image the manager hands out for a frame is still held after `UpdateCameraImage` returns |

## Findings

| source | as written | input that shows it | evidently intended | confidence | as-written member | corrected member |
|---|---|---|---|---|---|---|
| Assets/ImageOffloader.cs:102-143 | The image is acquired at :102, but the `try` whose `finally` disposes it only starts at :134. The info label is dereferenced at :108 without a null check, unlike the button at :76. `UpdateCameraImage` models this as written | A component whose `m_ImageInfo` is not assigned, receiving a frame for which acquisition succeeds: :108 throws, and the acquired image is never disposed | The comment at :100-101 says the acquired resource must be disposed, so it should be disposed on every exit path after acquisition | medium; not executed | `Offloader.MissingInfoLabelLeaks` | `Offloader.ImageOffloader.UpdateCameraImageReleasing` |

## Left out

- Pixel conversion and mirroring inside `XRCpuImage.Convert`: this is a foreign framework call. Only its parameters, its destination length and whether it throws are modelled.
- The unsafe pointer to the raw texture data (`GetUnsafePtr`, `IntPtr`): this is raw memory plumbing. The model keeps the buffer's length only.
- The text of the info label and of the button label: these are string formatting of a floating-point timestamp and of framework enum names. The model records which image and which transformation each label shows.
- `OnEnable`/`OnDisable` (subscribing to the frame event), `OnCameraFrameReceived`, and the empty `Start`/`Update`: these are engine lifecycle and event plumbing. Each frame event is one call of `UpdateCameraImage`.
- The commented-out `Apply` and display lines after the conversion: they do nothing.
- The `mipChain: false` argument of the texture constructor: the raw-data length is stated for a texture without mipmaps.
- `Offloader.ImageOffloader.CycleTransformation`: it assumes the button has a legacy `Text` child. The source dereferences `GetComponentInChildren<Text>()` at :78 without a check. With no such child it throws after `m_Transformation` has changed. The model then writes the button label anyway.
- `Offloader.ImageOffloader.UpdateCameraImage`: other exceptions between :108 and :133 are not modelled, for example a failing texture allocation. Like the missing info label, they would leave the image undisposed.
- `UpdateCameraImage`: a `null` camera manager is not modelled. The source calls it without a null check, and the model's manager is never null.
- `Camera.CameraManager.TryAcquireLatestCpuImage`: it does not model why the framework refuses an image, for example when too many images are held. Failure is left nondeterministic.
- `Assets/mapViewer.cs`: it only configures and shows a third-party web view that loads a remote page. It has no logic of its own.
- Format-unsupported, size-mismatch and already-released errors: the component never checks the source format or the destination size and raises no error of its own. The only failure modelled is that `Convert` may throw. A second conversion of a released handle is ruled out by `Convert`'s precondition, which `UpdateCameraImage` is proved to meet.
