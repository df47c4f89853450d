/**
  The cube's character: a position in space and a yaw angle in degrees,
  advanced once per frame from the keys the tracker reports as held.
  Single-precision floats are modelled as exact reals, and the C library's
  sinf/cosf as a pair of real functions passed in as a parameter (`Trig`),
  so every property below holds for any sine and cosine unless it says
  which values it needs.
 */
module Character {
  import Controls

  type WParam = Controls.WParam

  // Virtual-key codes the character reacts to.
  const KeyW: WParam := 0x57
  const KeyS: WParam := 0x53
  const KeyA: WParam := 0x41
  const KeyD: WParam := 0x44
  const VkUp: WParam := 0x26
  const VkDown: WParam := 0x28
  const VkSpace: WParam := 0x20

  /** DirectXMath's XM_PI. */
  const XmPi: real := 3.141592654

  /** Construction defaults. */
  const DefaultSpeed: real := 0.5
  const DefaultRotationSpeed: real := 5.0

  /** The fixed frame step the host loop passes to every update. */
  const FrameTime: real := 1.0 / 60.0

  datatype Float3 = Float3(x: real, y: real, z: real)
  datatype Float2 = Float2(x: real, y: real)

  /** The sine and cosine the update uses, on radians. */
  datatype Trig = Trig(sin: real -> real, cos: real -> real)

  /** What the renderer reads of the character: position and yaw in degrees. */
  datatype Pose = Pose(position: Float3, rotation: real)

  /** Which of the seven action keys are held during one frame. */
  datatype Held = Held(forward: bool, backward: bool, left: bool, right: bool,
                       up: bool, down: bool, rotate: bool)

  const NoKeys := Held(false, false, false, false, false, false, false)

  /** The held actions as the key tracker reports them. */
  function HeldKeys(keyStates: map<WParam, bool>): Held
  {
    Held(Controls.Pressed(keyStates, KeyW), Controls.Pressed(keyStates, KeyS),
         Controls.Pressed(keyStates, KeyA), Controls.Pressed(keyStates, KeyD),
         Controls.Pressed(keyStates, VkUp), Controls.Pressed(keyStates, VkDown),
         Controls.Pressed(keyStates, VkSpace))
  }

  function Radians(degrees: real): real
  {
    XmPi * degrees / 180.0
  }

  /** Unit "ahead" direction in the x/z plane for a yaw in degrees. */
  function Forward(trig: Trig, degrees: real): Float2
  {
    Float2(trig.sin(Radians(degrees)), trig.cos(Radians(degrees)))
  }

  /** Unit "to the right" direction in the x/z plane for a yaw in degrees. */
  function Right(trig: Trig, degrees: real): Float2
  {
    Float2(trig.cos(Radians(degrees)), -trig.sin(Radians(degrees)))
  }

  /** The net push of a pair of opposite keys: `v` for the first alone, `-v` for
      the second alone, nothing for both or neither. */
  function Net(positive: bool, negative: bool, v: real): real
  {
    (if positive then v else 0.0) - (if negative then v else 0.0)
  }

  /** The wrap the update applies: one subtraction of 360, not a modulo. */
  function WrapOnce(degrees: real): real
  {
    if degrees >= 360.0 then degrees - 360.0 else degrees
  }

  /**
    One frame as a whole: the x/z move is the net forward/backward push along
    the forward vector plus the net right/left push along the right vector, each
    scaled by speed * dt; y moves by the net up/down push; the yaw advances by
    rotationSpeed * dt and wraps once, only while the rotate key is held.
   */
  function Step(p: Pose, h: Held, speed: real, rotationSpeed: real, dt: real, trig: Trig): Pose
  {
    var moveDelta := speed * dt;
    var f := Forward(trig, p.rotation);
    var r := Right(trig, p.rotation);
    Pose(Float3(p.position.x + Net(h.forward, h.backward, f.x * moveDelta) + Net(h.right, h.left, r.x * moveDelta),
                p.position.y + Net(h.up, h.down, moveDelta),
                p.position.z + Net(h.forward, h.backward, f.y * moveDelta) + Net(h.right, h.left, r.y * moveDelta)),
         if h.rotate then WrapOnce(p.rotation + rotationSpeed * dt) else p.rotation)
  }

  /** Step with the four scaled pushes named, so that what remains is sums. */
  lemma StepWithPushes(p: Pose, h: Held, speed: real, rotationSpeed: real, dt: real, trig: Trig,
                       md: real, fx: real, fz: real, rx: real, rz: real)
    requires md == speed * dt
    requires fx == Forward(trig, p.rotation).x * md && fz == Forward(trig, p.rotation).y * md
    requires rx == Right(trig, p.rotation).x * md && rz == Right(trig, p.rotation).y * md
    ensures Step(p, h, speed, rotationSpeed, dt, trig)
         == Pose(Float3(p.position.x + Net(h.forward, h.backward, fx) + Net(h.right, h.left, rx),
                        p.position.y + Net(h.up, h.down, md),
                        p.position.z + Net(h.forward, h.backward, fz) + Net(h.right, h.left, rz)),
                 if h.rotate then WrapOnce(p.rotation + rotationSpeed * dt) else p.rotation)
  {
  }

  function Displacement(from: Float3, to: Float3): Float3
  {
    Float3(to.x - from.x, to.y - from.y, to.z - from.z)
  }

  function LengthSquared(v: Float3): real
  {
    v.x * v.x + v.y * v.y + v.z * v.z
  }

  /** A run of frames, first to last, each with the keys held during it. */
  function Run(p: Pose, frames: seq<Held>, speed: real, rotationSpeed: real, dt: real, trig: Trig): Pose
    decreases |frames|
  {
    if frames == [] then p
    else Run(Step(p, frames[0], speed, rotationSpeed, dt, trig), frames[1..], speed, rotationSpeed, dt, trig)
  }

  class Character {
    var position: Float3
    var rotation: real
    const controls: Controls.Controls
    const speed: real
    const rotationSpeed: real

    constructor ()
      ensures position == Float3(0.0, 0.0, 0.0) && rotation == 0.0
      ensures speed == DefaultSpeed && rotationSpeed == DefaultRotationSpeed
      ensures fresh(controls) && controls.keyStates == map[]
    {
      position := Float3(0.0, 0.0, 0.0);
      rotation := 0.0;
      speed := DefaultSpeed;
      rotationSpeed := DefaultRotationSpeed;
      controls := new Controls.Controls();
    }

    function GetPosition(): Float3
      reads this
    {
      position
    }

    function GetRotation(): real
      reads this
    {
      rotation
    }

    function CurrentPose(): Pose
      reads this
    {
      Pose(position, rotation)
    }

    /** One frame: each held key adds its push in turn; the key map is only read. */
    method Update(deltaTime: real, trig: Trig)
      modifies this`position, this`rotation
      ensures CurrentPose() == Step(old(CurrentPose()), HeldKeys(controls.keyStates),
                                    speed, rotationSpeed, deltaTime, trig)
    {
      var moveDelta := speed * deltaTime;
      var rotateDelta := rotationSpeed * deltaTime;
      var forward := Forward(trig, rotation);
      var right := Right(trig, rotation);
      ghost var h := HeldKeys(controls.keyStates);
      ghost var p0 := position;
      ghost var fx, fz := forward.x * moveDelta, forward.y * moveDelta;
      ghost var rx, rz := right.x * moveDelta, right.y * moveDelta;
      ghost var target := Step(CurrentPose(), h, speed, rotationSpeed, deltaTime, trig);
      StepWithPushes(CurrentPose(), h, speed, rotationSpeed, deltaTime, trig, moveDelta, fx, fz, rx, rz);
      assert target.position == Float3(p0.x + Net(h.forward, h.backward, fx) + Net(h.right, h.left, rx),
                                       p0.y + Net(h.up, h.down, moveDelta),
                                       p0.z + Net(h.forward, h.backward, fz) + Net(h.right, h.left, rz));
      // The pushes accumulate in locals and are stored back at the end of the frame.
      var pos := position;
      if controls.IsKeyDown(KeyW) {
        pos := pos.(x := pos.x + forward.x * moveDelta, z := pos.z + forward.y * moveDelta);
      }
      if controls.IsKeyDown(KeyS) {
        pos := pos.(x := pos.x - forward.x * moveDelta, z := pos.z - forward.y * moveDelta);
      }
      assert pos == Float3(p0.x + Net(h.forward, h.backward, fx), p0.y, p0.z + Net(h.forward, h.backward, fz));
      if controls.IsKeyDown(KeyA) {
        pos := pos.(x := pos.x - right.x * moveDelta, z := pos.z - right.y * moveDelta);
      }
      if controls.IsKeyDown(KeyD) {
        pos := pos.(x := pos.x + right.x * moveDelta, z := pos.z + right.y * moveDelta);
      }
      assert pos == Float3(p0.x + Net(h.forward, h.backward, fx) + Net(h.right, h.left, rx), p0.y,
                           p0.z + Net(h.forward, h.backward, fz) + Net(h.right, h.left, rz));
      if controls.IsKeyDown(VkUp) {
        pos := pos.(y := pos.y + moveDelta);
      }
      if controls.IsKeyDown(VkDown) {
        pos := pos.(y := pos.y - moveDelta);
      }
      assert pos == target.position;
      var rot := rotation;
      if controls.IsKeyDown(VkSpace) {
        rot := rot + rotateDelta;
        if rot >= 360.0 {
          rot := rot - 360.0;
        }
      }
      assert rot == target.rotation;
      position, rotation := pos, rot;
    }

    method OnKeyDown(key: WParam)
      modifies controls
      ensures controls.keyStates == Controls.Apply(old(controls.keyStates), Controls.Down(key))
      ensures CurrentPose() == old(CurrentPose())
    {
      controls.KeyDown(key);
    }

    method OnKeyUp(key: WParam)
      modifies controls
      ensures controls.keyStates == Controls.Apply(old(controls.keyStates), Controls.Up(key))
      ensures CurrentPose() == old(CurrentPose())
    {
      controls.KeyUp(key);
    }
  }
}

module CharacterProperties {
  import Controls
  import opened Character

  /** With no action key held, a frame changes neither position nor rotation. */
  lemma IdleFrameChangesNothing(p: Pose, speed: real, rotationSpeed: real, dt: real, trig: Trig)
    ensures Step(p, NoKeys, speed, rotationSpeed, dt, trig) == p
  {
  }

  /** Which key touches which field: only the rotate key changes the yaw, only
      up/down change y, and forward/backward/left/right change only x and z. */
  lemma EachKeyTouchesItsFields(p: Pose, h1: Held, h2: Held, speed: real, rotationSpeed: real, dt: real, trig: Trig)
    ensures var q1 := Step(p, h1, speed, rotationSpeed, dt, trig);
            var q2 := Step(p, h2, speed, rotationSpeed, dt, trig);
            && (h1.rotate == h2.rotate ==> q1.rotation == q2.rotation)
            && (h1.up == h2.up && h1.down == h2.down ==> q1.position.y == q2.position.y)
            && ((h1.forward, h1.backward, h1.left, h1.right) == (h2.forward, h2.backward, h2.left, h2.right) ==>
                  q1.position.x == q2.position.x && q1.position.z == q2.position.z)
    ensures var q := Step(p, h1, speed, rotationSpeed, dt, trig);
            && (!h1.rotate ==> q.rotation == p.rotation)
            && (!h1.up && !h1.down ==> q.position.y == p.position.y)
            && (!(h1.forward || h1.backward || h1.left || h1.right) ==>
                  q.position.x == p.position.x && q.position.z == p.position.z)
  {
  }

  /** Up alone raises y by speed * dt, down alone lowers it by as much, both together cancel. */
  lemma VerticalMove(p: Pose, h: Held, speed: real, rotationSpeed: real, dt: real, trig: Trig)
    ensures var y := Step(p, h, speed, rotationSpeed, dt, trig).position.y;
            && (h.up && !h.down ==> y == p.position.y + speed * dt)
            && (!h.up && h.down ==> y == p.position.y - speed * dt)
            && (h.up == h.down ==> y == p.position.y)
  {
  }

  /** Each pair of opposite keys held together is the same frame as neither held. */
  lemma OppositeKeysCancel(p: Pose, h: Held, speed: real, rotationSpeed: real, dt: real, trig: Trig)
    ensures Step(p, h.(forward := true, backward := true), speed, rotationSpeed, dt, trig)
         == Step(p, h.(forward := false, backward := false), speed, rotationSpeed, dt, trig)
    ensures Step(p, h.(left := true, right := true), speed, rotationSpeed, dt, trig)
         == Step(p, h.(left := false, right := false), speed, rotationSpeed, dt, trig)
    ensures Step(p, h.(up := true, down := true), speed, rotationSpeed, dt, trig)
         == Step(p, h.(up := false, down := false), speed, rotationSpeed, dt, trig)
  {
  }

  /** At yaw 0, forward alone moves speed * dt along +z and nothing else. */
  lemma ForwardAtZeroYaw(p: Pose, speed: real, rotationSpeed: real, dt: real, trig: Trig)
    requires p.rotation == 0.0
    requires trig.sin(0.0) == 0.0 && trig.cos(0.0) == 1.0
    ensures Step(p, NoKeys.(forward := true), speed, rotationSpeed, dt, trig)
         == Pose(Float3(p.position.x, p.position.y, p.position.z + speed * dt), 0.0)
  {
    assert Radians(p.rotation) == 0.0;
    assert Forward(trig, p.rotation) == Float2(0.0, 1.0);
    assert Right(trig, p.rotation) == Float2(1.0, 0.0);
  }

  /** How far one frame moves the character. */
  function MoveOf(p: Pose, h: Held, speed: real, rotationSpeed: real, dt: real, trig: Trig): Float3
  {
    Displacement(p.position, Step(p, h, speed, rotationSpeed, dt, trig).position)
  }

  /** Forward and right together: the two pushes are perpendicular and add up
      without being normalised, so the squared length of the diagonal move is the
      sum of the two single moves' (twice either), and the diagonal is strictly
      longer than either single move whenever the character moves at all. */
  lemma DiagonalMoveIsLonger(p: Pose, speed: real, rotationSpeed: real, dt: real, trig: Trig)
    requires var a := Radians(p.rotation); trig.sin(a) * trig.sin(a) + trig.cos(a) * trig.cos(a) == 1.0
    ensures var ahead := LengthSquared(MoveOf(p, NoKeys.(forward := true), speed, rotationSpeed, dt, trig));
            var aside := LengthSquared(MoveOf(p, NoKeys.(right := true), speed, rotationSpeed, dt, trig));
            var both := LengthSquared(MoveOf(p, NoKeys.(forward := true, right := true), speed, rotationSpeed, dt, trig));
            && ahead == (speed * dt) * (speed * dt)
            && aside == ahead
            && both == ahead + aside
            && (ahead != 0.0 ==> both > ahead && both > aside)
  {
    var a := Radians(p.rotation);
    var s, c, m := trig.sin(a), trig.cos(a), speed * dt;
    PlanarDisplacements(p, speed, rotationSpeed, dt, trig);
    UnitPushLengths(s, c, m);
    var ahead := LengthSquared(MoveOf(p, NoKeys.(forward := true), speed, rotationSpeed, dt, trig));
    var both := LengthSquared(MoveOf(p, NoKeys.(forward := true, right := true), speed, rotationSpeed, dt, trig));
    SumExceedsPart(both, ahead, ahead);
  }

  /** A sum of two equal non-zero squared lengths exceeds each of them. */
  lemma SumExceedsPart(total: real, part: real, other: real)
    requires part >= 0.0 && other == part && total == part + other
    ensures part != 0.0 ==> total > part
  {
  }

  /** The x/z displacement of forward, right, and both, in terms of the sine and cosine of the yaw. */
  lemma PlanarDisplacements(p: Pose, speed: real, rotationSpeed: real, dt: real, trig: Trig)
    ensures var a := Radians(p.rotation);
            var s, c, m := trig.sin(a), trig.cos(a), speed * dt;
            && MoveOf(p, NoKeys.(forward := true), speed, rotationSpeed, dt, trig) == Float3(s * m, 0.0, c * m)
            && MoveOf(p, NoKeys.(right := true), speed, rotationSpeed, dt, trig) == Float3(c * m, 0.0, (-s) * m)
            && MoveOf(p, NoKeys.(forward := true, right := true), speed, rotationSpeed, dt, trig)
                 == Float3((s + c) * m, 0.0, (c - s) * m)
  {
    var a := Radians(p.rotation);
    var s, c := trig.sin(a), trig.cos(a);
    assert Forward(trig, p.rotation) == Float2(s, c);
    assert Right(trig, p.rotation) == Float2(c, -s);
  }

  lemma UnitPushLengths(s: real, c: real, m: real)
    requires s * s + c * c == 1.0
    ensures LengthSquared(Float3(s * m, 0.0, c * m)) == m * m
    ensures LengthSquared(Float3(c * m, 0.0, (-s) * m)) == m * m
    ensures LengthSquared(Float3((s + c) * m, 0.0, (c - s) * m)) == m * m + m * m
  {
    calc {
      LengthSquared(Float3(s * m, 0.0, c * m));
      (s * m) * (s * m) + (c * m) * (c * m);
      (s * s + c * c) * (m * m);
      m * m;
    }
    calc {
      LengthSquared(Float3(c * m, 0.0, (-s) * m));
      (c * m) * (c * m) + ((-s) * m) * ((-s) * m);
      (s * s + c * c) * (m * m);
      m * m;
    }
    calc {
      LengthSquared(Float3((s + c) * m, 0.0, (c - s) * m));
      ((s + c) * m) * ((s + c) * m) + ((c - s) * m) * ((c - s) * m);
      2.0 * (s * s + c * c) * (m * m);
      m * m + m * m;
    }
  }

  /** A yaw in [0, 360) stays there after one frame when the frame's turn is in [0, 360). */
  lemma StepKeepsRotationInRange(p: Pose, h: Held, speed: real, rotationSpeed: real, dt: real, trig: Trig)
    requires 0.0 <= p.rotation < 360.0
    requires 0.0 <= rotationSpeed * dt < 360.0
    ensures 0.0 <= Step(p, h, speed, rotationSpeed, dt, trig).rotation < 360.0
  {
  }

  /** The wrap is one subtraction: a turn of 720 degrees in one frame from yaw 0 ends at 360. */
  lemma WrapIsNotModulo(p: Pose, trig: Trig)
    requires p.rotation == 0.0
    ensures Step(p, NoKeys.(rotate := true), 0.0, 720.0, 1.0, trig).rotation == 360.0
  {
  }

  /** The yaw stays in [0, 360) over any number of frames with any keys held. */
  lemma {:induction false} RunKeepsRotationInRange(p: Pose, frames: seq<Held>, speed: real, rotationSpeed: real, dt: real, trig: Trig)
    requires 0.0 <= p.rotation < 360.0
    requires 0.0 <= rotationSpeed * dt < 360.0
    ensures 0.0 <= Run(p, frames, speed, rotationSpeed, dt, trig).rotation < 360.0
    decreases |frames|
  {
    if frames != [] {
      StepKeepsRotationInRange(p, frames[0], speed, rotationSpeed, dt, trig);
      RunKeepsRotationInRange(Step(p, frames[0], speed, rotationSpeed, dt, trig), frames[1..], speed, rotationSpeed, dt, trig);
    }
  }

  /** With the default speeds and the host's fixed frame step, a character that
      starts at yaw 0 keeps its yaw in [0, 360) for ever. */
  lemma {:induction false} DefaultCharacterRotationInRange(frames: seq<Held>, trig: Trig)
    ensures var start := Pose(Float3(0.0, 0.0, 0.0), 0.0);
            0.0 <= Run(start, frames, DefaultSpeed, DefaultRotationSpeed, FrameTime, trig).rotation < 360.0
  {
    RunKeepsRotationInRange(Pose(Float3(0.0, 0.0, 0.0), 0.0), frames, DefaultSpeed, DefaultRotationSpeed, FrameTime, trig);
  }

  /** If no key event since start-up was about one of the seven action keys, a
      frame leaves the character where it is. */
  lemma {:induction false} IdleWithoutActionKeyEvents(events: seq<Controls.KeyEvent>, p: Pose,
                                                      speed: real, rotationSpeed: real, dt: real, trig: Trig)
    requires forall i :: 0 <= i < |events| ==>
      events[i].key !in {KeyW, KeyS, KeyA, KeyD, VkUp, VkDown, VkSpace}
    ensures Step(p, HeldKeys(Controls.Replay(map[], events)), speed, rotationSpeed, dt, trig) == p
  {
    var keys := Controls.Replay(map[], events);
    Controls.UnmentionedKeyIsReleased(events, KeyW);
    Controls.UnmentionedKeyIsReleased(events, KeyS);
    Controls.UnmentionedKeyIsReleased(events, KeyA);
    Controls.UnmentionedKeyIsReleased(events, KeyD);
    Controls.UnmentionedKeyIsReleased(events, VkUp);
    Controls.UnmentionedKeyIsReleased(events, VkDown);
    Controls.UnmentionedKeyIsReleased(events, VkSpace);
    assert HeldKeys(keys) == NoKeys;
  }

  /** Start-up, an up-arrow key-down, then one frame at the host's fixed step:
      the cube rises by speed / 60 and nothing else changes. */
  method ClimbOneFrame(trig: Trig) returns (pose: Pose)
    ensures pose == Pose(Float3(0.0, DefaultSpeed * FrameTime, 0.0), 0.0)
  {
    var c := new Character();
    c.OnKeyDown(VkUp);
    c.Update(FrameTime, trig);
    pose := c.CurrentPose();
  }

  /** Start-up, W pressed, one frame of length 1: the cube moves (0, 0, 0.5). */
  method ForwardOneSecond(trig: Trig) returns (pose: Pose)
    requires trig.sin(0.0) == 0.0 && trig.cos(0.0) == 1.0
    ensures pose == Pose(Float3(0.0, 0.0, 0.5), 0.0)
  {
    var c := new Character();
    c.OnKeyDown(KeyW);
    c.Update(1.0, trig);
    pose := c.CurrentPose();
    assert Radians(0.0) == 0.0;
  }

  /** A key pressed then released reads as released, and nothing moved. */
  method PressThenRelease(key: Controls.WParam, trig: Trig) returns (down: bool, pose: Pose)
    ensures !down
    ensures pose == Pose(Float3(0.0, 0.0, 0.0), 0.0)
  {
    var c := new Character();
    c.OnKeyDown(key);
    c.OnKeyUp(key);
    down := c.controls.IsKeyDown(key);
    pose := c.CurrentPose();
  }
}
