/** planet.py: a celestial body that orbits the origin in the y = 0 plane and
    spins about its own y axis, advanced once per frame. */
module Bodies {
  import opened Wrappers
  import opened Numerics

  /** What differs between Planet, Sun and TexturedPlanet: only the uniforms
      they upload, and the texture unit a textured planet carries. */
  datatype BodyKind = Plain | Sun | Textured(textureUnit: Option<int>)

  /** The parameters fixed at construction that drive the motion. */
  datatype OrbitParams = OrbitParams(orbitRadius: real, orbitSpeed: real, spinSpeed: real)

  /** The fields that `update` rewrites every frame. */
  datatype Motion = Motion(orbitAngle: real, spinAngle: real, position: Vec3, time: real)

  const DefaultColorLeft: Vec3 := Vec3(1.0, 1.0, 0.0)
  const DefaultColorRight: Vec3 := Vec3(1.0, 0.5, 0.0)

  /** The point at `angle` on the circle of radius `orbitRadius` about the origin. */
  function OrbitPosition(orbitRadius: real, angle: real, trig: Trig): Vec3 {
    Vec3(orbitRadius * trig.cos(angle), 0.0, orbitRadius * trig.sin(angle))
  }

  /** The body sits on its orbit at its current orbit angle. */
  predicate OnOrbit(o: OrbitParams, m: Motion, trig: Trig) {
    m.position == OrbitPosition(o.orbitRadius, m.orbitAngle, trig)
  }

  /** The motion right after construction: both angles zero, the body at
      (orbitRadius, 0, 0), no time recorded. */
  function InitialMotion(o: OrbitParams): Motion {
    Motion(0.0, 0.0, Vec3(o.orbitRadius, 0.0, 0.0), 0.0)
  }

  /** An angle after turning at `speed` for `dt` seconds. */
  function Advance(angle: real, speed: real, dt: real): real {
    angle + speed * dt
  }

  /** One `update(delta_time)`: both angles advance by speed times the step,
      the position follows the orbit angle, and `time` records the step. */
  function Step(o: OrbitParams, m: Motion, dt: real, trig: Trig): Motion {
    var orbitAngle := Advance(m.orbitAngle, o.orbitSpeed, dt);
    var spinAngle := Advance(m.spinAngle, o.spinSpeed, dt);
    Motion(orbitAngle, spinAngle, OrbitPosition(o.orbitRadius, orbitAngle, trig), dt)
  }

  /** One update per frame, for the frame steps `dts` in order. */
  function Run(o: OrbitParams, m: Motion, dts: seq<real>, trig: Trig): Motion
    decreases |dts|
  {
    if dts == [] then m else Run(o, Step(o, m, dts[0], trig), dts[1..], trig)
  }

  function Sum(dts: seq<real>): real
    decreases |dts|
  {
    if dts == [] then 0.0 else dts[0] + Sum(dts[1..])
  }

  /** The constructor's position is the orbit point at angle 0, given cos 0 = 1
      and sin 0 = 0. */
  lemma InitialOnOrbit(o: OrbitParams, trig: Trig)
    requires trig.cos(0.0) == 1.0 && trig.sin(0.0) == 0.0
    ensures OnOrbit(o, InitialMotion(o), trig)
  {
  }

  /** After any update the body is on its orbit, in the y = 0 plane. */
  lemma StepOnOrbit(o: OrbitParams, m: Motion, dt: real, trig: Trig)
    ensures OnOrbit(o, Step(o, m, dt, trig), trig)
    ensures Step(o, m, dt, trig).position.y == 0.0
  {
  }

  /** Updating by dt1 and then dt2 reaches the same angles and position as one
      update by dt1 + dt2; only `time` differs, holding the last step. */
  lemma StepsCompose(o: OrbitParams, m: Motion, dt1: real, dt2: real, trig: Trig)
    ensures var two := Step(o, Step(o, m, dt1, trig), dt2, trig);
      var one := Step(o, m, dt1 + dt2, trig);
      && two.orbitAngle == one.orbitAngle
      && two.spinAngle == one.spinAngle
      && two.position == one.position
      && two.time == dt2 && one.time == dt1 + dt2
  {
    var mid := Step(o, m, dt1, trig);
    assert mid.orbitAngle + o.orbitSpeed * dt2 == m.orbitAngle + o.orbitSpeed * (dt1 + dt2);
    assert mid.spinAngle + o.spinSpeed * dt2 == m.spinAngle + o.spinSpeed * (dt1 + dt2);
  }

  /** Angles only accumulate: after any sequence of updates each angle has
      advanced by its speed times the total elapsed time, the body is on its
      orbit, and `time` holds the last step rather than the total. */
  lemma {:induction false} RunAccumulates(o: OrbitParams, m: Motion, dts: seq<real>, trig: Trig)
    ensures Run(o, m, dts, trig).orbitAngle == m.orbitAngle + o.orbitSpeed * Sum(dts)
    ensures Run(o, m, dts, trig).spinAngle == m.spinAngle + o.spinSpeed * Sum(dts)
    ensures dts != [] ==> OnOrbit(o, Run(o, m, dts, trig), trig)
    ensures dts != [] ==> Run(o, m, dts, trig).time == dts[|dts| - 1]
    decreases |dts|
  {
    if dts != [] {
      var next := Step(o, m, dts[0], trig);
      RunAccumulates(o, next, dts[1..], trig);
      assert o.orbitSpeed * (dts[0] + Sum(dts[1..])) == o.orbitSpeed * dts[0] + o.orbitSpeed * Sum(dts[1..]);
      assert o.spinSpeed * (dts[0] + Sum(dts[1..])) == o.spinSpeed * dts[0] + o.spinSpeed * Sum(dts[1..]);
      if dts[1..] == [] {
        assert Run(o, next, dts[1..], trig) == next;
      }
    }
  }

  /** Running two stretches of frames one after the other is running them joined. */
  lemma {:induction false} RunConcat(o: OrbitParams, m: Motion, a: seq<real>, b: seq<real>, trig: Trig)
    ensures Run(o, m, a + b, trig) == Run(o, Run(o, m, a, trig), b, trig)
    decreases |a|
  {
    if a != [] {
      assert (a + b)[0] == a[0];
      assert (a + b)[1..] == a[1..] + b;
      RunConcat(o, Step(o, m, a[0], trig), a[1..], b, trig);
    } else {
      assert a + b == b;
    }
  }

  /** A body with orbit radius 0, as the sun is built, stays at the origin
      through any sequence of updates. */
  lemma {:induction false} CentralBodyStaysAtOrigin(o: OrbitParams, m: Motion, dts: seq<real>, trig: Trig)
    requires o.orbitRadius == 0.0 && m.position == Origin
    ensures Run(o, m, dts, trig).position == Origin
    decreases |dts|
  {
    if dts != [] {
      CentralBodyStaysAtOrigin(o, Step(o, m, dts[0], trig), dts[1..], trig);
    }
  }

  /** A body that starts in the y = 0 plane never leaves it. */
  lemma {:induction false} RunStaysInOrbitPlane(o: OrbitParams, m: Motion, dts: seq<real>, trig: Trig)
    requires m.position.y == 0.0
    ensures Run(o, m, dts, trig).position.y == 0.0
    decreases |dts|
  {
    if dts != [] {
      RunStaysInOrbitPlane(o, Step(o, m, dts[0], trig), dts[1..], trig);
    }
  }

  /** The rows of a model matrix for position p, spin cosine c and sine s,
      and radius r. */
  function ModelRows(p: Vec3, c: real, s: real, r: real): Mat4 {
    [[r * c, 0.0, r * s, p.x],
     [0.0, r, 0.0, p.y],
     [-r * s, 0.0, r * c, p.z],
     [0.0, 0.0, 0.0, 1.0]]
  }

  /** translation(p) @ rotationY(c, s) @ scale(r), multiplied out. */
  lemma TranslateRotateScale(p: Vec3, c: real, s: real, r: real)
    ensures Mul(Mul(Translation(p), RotationY(c, s)), Scale(r)) == ModelRows(p, c, s, r)
  {
    var tr: Mat4 := [[c, 0.0, s, p.x],
                     [0.0, 1.0, 0.0, p.y],
                     [-s, 0.0, c, p.z],
                     [0.0, 0.0, 0.0, 1.0]];
    Mat4Ext(Mul(Translation(p), RotationY(c, s)), tr);
    Mat4Ext(Mul(tr, Scale(r)), ModelRows(p, c, s, r));
  }

  class Planet {
    var name: string
    var radius: real
    var orbitRadius: real
    /** Radians per second. */
    var orbitSpeed: real
    /** Radians per second. */
    var spinSpeed: real
    var colorLeft: Vec3
    var colorRight: Vec3
    /** Handles of the vertex array and shader program, set by the renderer. */
    var vao: Option<nat>
    var program: Option<nat>
    var orbitAngle: real
    var spinAngle: real
    var position: Vec3
    /** The latest frame step, read by the sun's shader. */
    var time: real
    var kind: BodyKind

    function Params(): OrbitParams
      reads this
    {
      OrbitParams(orbitRadius, orbitSpeed, spinSpeed)
    }

    function State(): Motion
      reads this
    {
      Motion(orbitAngle, spinAngle, position, time)
    }

    /** Planet.__init__, and through `kind` the Sun and TexturedPlanet
        constructors, which pass their parameters on with the default colours. */
    constructor (name: string, radius: real := 1.0, orbitRadius: real := 0.0,
                 orbitSpeed: real := 0.0, spinSpeed: real := 0.0,
                 colorLeft: Vec3 := DefaultColorLeft, colorRight: Vec3 := DefaultColorRight,
                 kind: BodyKind := Plain)
      requires kind.Textured? ==> kind.textureUnit.None?
      requires !kind.Plain? ==> colorLeft == DefaultColorLeft && colorRight == DefaultColorRight
      ensures this.name == name && this.radius == radius && this.kind == kind
      ensures this.colorLeft == colorLeft && this.colorRight == colorRight
      ensures Params() == OrbitParams(orbitRadius, orbitSpeed, spinSpeed)
      ensures vao.None? && program.None?
      ensures State() == InitialMotion(Params())
    {
      this.name := name;
      this.radius := radius;
      this.orbitRadius := orbitRadius;
      this.orbitSpeed := orbitSpeed;
      this.spinSpeed := spinSpeed;
      this.colorLeft := colorLeft;
      this.colorRight := colorRight;
      this.vao := None;
      this.program := None;
      this.orbitAngle := 0.0;
      this.spinAngle := 0.0;
      this.position := Vec3(orbitRadius, 0.0, 0.0);
      this.time := 0.0;
      this.kind := kind;
    }

    /** Planet.update: advances both angles, moves the body along its orbit
      and records the step; nothing else changes. */
    method Update(deltaTime: real, trig: Trig)
      modifies this`orbitAngle, this`spinAngle, this`position, this`time
      ensures orbitAngle == old(orbitAngle) + orbitSpeed * deltaTime
      ensures spinAngle == old(spinAngle) + spinSpeed * deltaTime
      ensures position == Vec3(orbitRadius * trig.cos(orbitAngle), 0.0, orbitRadius * trig.sin(orbitAngle))
      ensures time == deltaTime
      ensures State() == Step(Params(), old(State()), deltaTime, trig)
    {
      orbitAngle := Advance(orbitAngle, orbitSpeed, deltaTime);
      spinAngle := Advance(spinAngle, spinSpeed, deltaTime);
      var x := orbitRadius * trig.cos(orbitAngle);
      var z := orbitRadius * trig.sin(orbitAngle);
      position := Vec3(x, 0.0, z);
      time := deltaTime;
    }

    /** Planet.get_model_matrix: translation(position) @ rotationY(spin) @
        scale(radius), which places the unit sphere scaled, then spun, then
        moved; multiplied out, its rows are the ones below. */
    function ModelMatrix(trig: Trig): (m: Mat4)
      reads this
      ensures m == ModelRows(position, trig.cos(spinAngle), trig.sin(spinAngle), radius)
    {
      var c := trig.cos(spinAngle);
      var s := trig.sin(spinAngle);
      TranslateRotateScale(position, c, s, radius);
      Mul(Mul(Translation(position), RotationY(c, s)), Scale(radius))
    }
  }

  /** Without spin the model matrix is just the translation times the scale. */
  lemma ModelMatrixWithoutSpin(p: Planet, trig: Trig)
    requires p.spinAngle == 0.0 && trig.cos(0.0) == 1.0 && trig.sin(0.0) == 0.0
    ensures p.ModelMatrix(trig) == Mul(Translation(p.position), Scale(p.radius))
  {
    Mat4Ext(p.ModelMatrix(trig), Mul(Translation(p.position), Scale(p.radius)));
  }
}
