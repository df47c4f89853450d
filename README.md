# movetheCube: key tracker and character, modelled in Dafny

The demo draws a cube that the user moves from the keyboard. Two small
classes do the work that this project models.

- `Controls` (`controls.dfy`) is the key tracker. It holds a map from
  virtual-key code (`WPARAM`) to a "held" flag. `KeyDown` stores `true` for
  a key and `KeyUp` stores `false`. The const query `IsKeyDown` returns the
  stored flag, or `false` for a key it has never seen.
- `Character` (`character.dfy`) holds a position and a yaw in degrees. It
  also owns a `Controls` and the two speeds that are fixed at construction
  (0.5 units and 5 degrees per second). Once per frame, `Update(deltaTime)`
  looks at the keys:
  - W/S push along the forward vector `(sin, cos)` of the yaw.
  - A/D push along the right vector `(cos, -sin)`.
  - The up and down arrows move along y.
  - Space turns the yaw by `rotationSpeed * deltaTime`. When that reaches
    360, the yaw is brought back down by a single subtraction of 360.

  `OnKeyDown` and `OnKeyUp` forward to the tracker.

The update is proved against a specification function, `Character.Step`. It
gives the new pose of one frame in closed form: the net push of each pair of
opposite keys, summed per axis. The lemmas in `CharacterProperties` are
statements about `Step`, about `Run` (a sequence of frames), and about
`Controls.Replay` (a sequence of key events). Because `Update` is proved
equal to `Step`, they are statements about the class as well. The three
scenario methods drive a freshly built `Character` through its methods.

The numeric model has these assumptions:

- Single-precision floats are modelled as exact reals.
- `sinf`/`cosf` are a pair of real functions given as a parameter
  (`Trig`). A property that needs concrete values of them, such as
  `sin 0 = 0`, `cos 0 = 1` or `sin² + cos² = 1`, takes them as a
  precondition.
- `WPARAM` is the 64-bit unsigned word.

The rotation is "normalised into [0, 360)" only under a condition. The
update subtracts 360 once; it does not reduce modulo 360. So the yaw stays in
range only while one frame's turn `rotationSpeed * deltaTime` is below 360.
That holds for the defaults at the host's fixed step of 1/60 s. A turn of
720 in one frame leaves the yaw at 360 (`WrapIsNotModulo`). The model
follows the code here, not the broader "any deltaTime ≥ 0" reading of the
behaviour.

## Model

| member | source | states |
|---|---|---|
| Controls.Controls.constructor | FileReader3/Controls.cpp:3 | a new tracker has an empty key map |
| Controls.Controls.KeyDown | FileReader3/Controls.cpp:7-11 | the map afterwards is the old map with the key set to held and every other entry unchanged |
| Controls.Controls.KeyUp | FileReader3/Controls.cpp:13-15 | the map afterwards is the old map with the key set to released and every other entry unchanged |
| Controls.Controls.IsKeyDown | FileReader3/Controls.cpp:17-23 | a const lookup (reads only): false for a key not in the map, the stored flag for a key in it |
| Controls.NeverSeenIsReleased | FileReader3/Controls.cpp:17-23 | a key absent from the map reads as released |
| Controls.EventSetsFlag | FileReader3/Controls.cpp:7-15 | after a key-down the key reads as held, after a key-up as released, whatever it was before |
| Controls.EventChangesNoOtherKey | FileReader3/Controls.cpp:7-15 | an event on one key leaves the reading of every other key unchanged |
| Controls.LastWriteWins | FileReader3/Controls.cpp:7-15 | two events on the same key give the same map as the second alone (so repeating an event is idempotent and down-then-up leaves the key released) |
| Controls.ReplayDecidedByLastEvent | FileReader3/Controls.cpp:7-23 | after any run of events a key reads as the latest event about it set it, or as before the run if no event mentions it |
| Controls.UnmentionedKeyIsReleased | FileReader3/Controls.cpp:17-23 | from start-up, a key that no event mentions reads as released |
| Character.Character.constructor | FileReader3/Character.cpp:7-13 | a new character is at the origin with yaw 0, speed 0.5, rotation speed 5, and an empty key tracker of its own |
| Character.Character.Update | FileReader3/Character.cpp:17-62 | the new pose is `Step` of the old pose under the keys the tracker reports held; the tracker and the speeds are not changed |
| Character.Character.OnKeyDown | FileReader3/Character.cpp:72-74 | the tracker records a key-down for the key; position and yaw are unchanged |
| Character.Character.OnKeyUp | FileReader3/Character.cpp:76-78 | the tracker records a key-up for the key; position and yaw are unchanged |
| CharacterProperties.IdleFrameChangesNothing | FileReader3/Character.cpp:28-62 | with no action key held a frame is the identity on the pose |
| CharacterProperties.EachKeyTouchesItsFields | FileReader3/Character.cpp:28-62 | only space changes the yaw, only the arrows change y, only W/S/A/D change x and z; a field whose keys are not held keeps its value |
| CharacterProperties.VerticalMove | FileReader3/Character.cpp:48-55 | up alone raises y by speed·dt, down alone lowers it by as much, both or neither leave it |
| CharacterProperties.OppositeKeysCancel | FileReader3/Character.cpp:28-55 | W with S, A with D and up with down each give the same frame as neither key of the pair |
| CharacterProperties.ForwardAtZeroYaw | FileReader3/Character.cpp:21-32 | at yaw 0 (sin 0 = 0, cos 0 = 1) forward alone moves exactly speed·dt along +z |
| CharacterProperties.PlanarDisplacements | FileReader3/Character.cpp:23-47 | forward, right and forward+right displace by (s·m, 0, c·m), (c·m, 0, −s·m) and their sum, with s, c the sine and cosine of the yaw and m = speed·dt |
| CharacterProperties.DiagonalMoveIsLonger | FileReader3/Character.cpp:23-47 | with sin² + cos² = 1 each single push has squared length (speed·dt)², forward+right has twice that (no normalisation), so the diagonal is strictly longer whenever the character moves |
| CharacterProperties.StepKeepsRotationInRange | FileReader3/Character.cpp:56-60 | a yaw in [0, 360) stays in [0, 360) after a frame whose turn is in [0, 360) |
| CharacterProperties.WrapIsNotModulo | FileReader3/Character.cpp:56-60 | the wrap is one subtraction: a 720-degree turn from yaw 0 ends at 360, outside [0, 360) |
| CharacterProperties.RunKeepsRotationInRange | FileReader3/Character.cpp:56-60 | under the same bound the yaw stays in [0, 360) over any number of frames with any keys held |
| CharacterProperties.DefaultCharacterRotationInRange | FileReader3/main.cpp:58-60 | with the default speeds and the host's fixed step of 1/60 s, a character starting at yaw 0 keeps its yaw in [0, 360) for ever |
| CharacterProperties.IdleWithoutActionKeyEvents | FileReader3/Character.cpp:28-62 | if no key event since start-up was about an action key, a frame leaves the pose unchanged |
| CharacterProperties.ClimbOneFrame | FileReader3/main.cpp:14-19 | start-up, an up-arrow key-down and one frame at 1/60 s leave the character at (0, 0.5/60, 0) with yaw 0 |
| CharacterProperties.ForwardOneSecond | FileReader3/Character.cpp:17-32 | start-up, a W key-down and one frame of length 1 leave the character at (0, 0, 0.5) with yaw 0 |
| CharacterProperties.PressThenRelease | FileReader3/Character.cpp:72-78 | after a key-down then a key-up on any key the key reads as released and the character has not moved |

## Left out

- FileReader3/DxManger.cpp (device, shaders, cube vertex and index tables, camera and rendering) is not part of this model. Only its forwarding of key events and frame updates to the character is reflected, through the scenario methods.
- The window and message loop in FileReader3/main.cpp are not modelled. The only thing taken from them is the fixed frame step of 1/60 s.
- `sinf` and `cosf` are not modelled. The update takes them as the `Trig` parameter, and no property depends on their values unless it says so in its precondition.
- Float rounding, NaN and infinities are not modelled: coordinates and the yaw are exact reals.
- The debug text is not modelled: the message built in `KeyDown` (Controls.cpp:9-10), and the `anyKeyPressed` flag with the position printout at the end of `Update` (Character.cpp:26, 64-69). None of it changes state.
- The destructors are empty and are not modelled.
- The getters `GetPosition` and `GetRotation` (Character.h:15-16) are modelled as reads-only functions `Character.Character.GetPosition` and `Character.Character.GetRotation`. They have no contract of their own, since each only returns a field.
- Character.Character.Update adds the pushes to a local copy of the position and yaw and stores them back once at the end of the frame. The source writes the fields key by key. Nothing reads the fields in between, so the final state is the same.
