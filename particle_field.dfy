/** The particle trail's buffer bookkeeping: once per frame the buffer is
    trimmed to a density-derived cap (oldest first), topped up with freshly
    spawned particles for mouse pointers, and every particle is aged, moved
    and culled when expired or out of the padded viewport. Canvas drawing is
    not modelled; the `Math.random` draws arrive as parameters. */
module ParticleField {
  import opened Numeric
  import opened Host
  import CursorContext

  datatype Particle = Particle(
    x: real, y: real, vx: real, vy: real,
    life: real, ttl: real, size: real, hue: real)

  /** The component's own snapshot of the cursor state (`pointerRef`). */
  datatype Pointer = Pointer(x: real, y: real, vx: real, vy: real, visible: bool, pointerType: string)

  /** The five `Math.random()` values one spawned particle consumes. */
  datatype Draw = Draw(angle: real, velocity: real, ttl: real, size: real, hue: real)

  predicate IsUnit(u: real) { 0.0 <= u < 1.0 }

  predicate ValidDraw(d: Draw)
  {
    IsUnit(d.angle) && IsUnit(d.velocity) && IsUnit(d.ttl) && IsUnit(d.size) && IsUnit(d.hue)
  }

  const BaseMaxParticles: real := 420.0
  const FrameScale: real := 16.0
  const Margin: real := 120.0

  /** `Math.floor(420 * (0.35 + density))`. */
  function MaxParticles(density: real): (r: int)
    ensures r as real <= BaseMaxParticles * (0.35 + density) < r as real + 1.0
  {
    (BaseMaxParticles * (0.35 + density)).Floor
  }

  /** Particles spawned per frame: none unless trails are on and the pointer is
      visible, otherwise the density scaled by 20 and rounded, never negative. */
  function SpawnRate(density: real, trails: bool, visible: bool): (r: int)
    ensures r >= 0
    ensures !(trails && visible) ==> r == 0
    ensures trails && visible && density >= 0.0 ==> r as real - 0.5 <= density * 20.0 < r as real + 0.5
  {
    if trails && visible then (if Round(density * 20.0) > 0 then Round(density * 20.0) else 0) else 0
  }

  /** The oldest entries removed so that at most `max(0, cap)` remain. */
  function Trimmed(ps: seq<Particle>, cap: int): (r: seq<Particle>)
    ensures |ps| <= cap ==> r == ps
    ensures |ps| > cap ==> |r| == (if cap > 0 then cap else 0)
    ensures r == ps[|ps| - |r|..]
  {
    if |ps| > cap then (if cap > 0 then ps[|ps| - cap..] else []) else ps
  }

  /** One particle spawned at the pointer from the draws `d`. */
  function Spawned(p: Pointer, d: Draw, math: MathLib): (q: Particle)
    requires ValidDraw(d)
    ensures q.x == p.x && q.y == p.y && q.life == 0.0
    ensures 80.0 <= q.ttl < 150.0
    ensures 1.2 <= q.size < 3.6
    ensures 210.0 <= q.hue < 300.0
  {
    var speedBoost := Min(math.hypot(p.vx, p.vy) * 320.0, 24.0);
    var angle := d.angle * math.pi * 2.0;
    var baseVelocity := 0.12 + d.velocity * 0.18;
    Particle(p.x, p.y,
             math.cos(angle) * (baseVelocity + speedBoost * 0.006),
             math.sin(angle) * (baseVelocity + speedBoost * 0.006),
             0.0, 80.0 + d.ttl * 70.0, 1.2 + d.size * 2.4, 210.0 + d.hue * 90.0)
  }

  predicate AllValid(ds: seq<Draw>)
  {
    forall i :: 0 <= i < |ds| ==> ValidDraw(ds[i])
  }

  /** The batch `spawnParticles(count)` appends, one particle per draw. */
  function SpawnBatch(p: Pointer, ds: seq<Draw>, math: MathLib): (r: seq<Particle>)
    requires AllValid(ds)
    ensures |r| == |ds|
    ensures forall i :: 0 <= i < |r| ==> r[i] == Spawned(p, ds[i], math)
  {
    seq(|ds|, i requires 0 <= i < |ds| => Spawned(p, ds[i], math))
  }

  /** A particle after `life += 1`, velocity damping and one frame of motion. */
  function Moved(p: Particle): (q: Particle)
    ensures q.life == p.life + 1.0 && q.ttl == p.ttl && q.size == p.size && q.hue == p.hue
  {
    var vx := p.vx * 0.96;
    var vy := p.vy * 0.96;
    p.(life := p.life + 1.0, vx := vx, vy := vy, x := p.x + vx * FrameScale, y := p.y + vy * FrameScale)
  }

  /** Inside the viewport padded by 120 px on every side. */
  predicate InView(p: Particle, width: real, height: real)
  {
    -Margin <= p.x <= width + Margin && -Margin <= p.y <= height + Margin
  }

  /** Whether a particle survives this frame: not expired after ageing, and
      still in view after moving. */
  predicate Survives(p: Particle, width: real, height: real)
  {
    p.life + 1.0 < p.ttl && InView(Moved(p), width, height)
  }

  /** The per-frame pass over the buffer: survivors, aged and moved, in their
      original order. Every survivor is in view and not expired. */
  function Pass(ps: seq<Particle>, width: real, height: real): (r: seq<Particle>)
    ensures |r| <= |ps|
    ensures forall i :: 0 <= i < |r| ==> InView(r[i], width, height) && r[i].life < r[i].ttl
  {
    if ps == [] then []
    else (if Survives(ps[0], width, height) then [Moved(ps[0])] else []) + Pass(ps[1..], width, height)
  }

  /** The pass works particle by particle: it distributes over concatenation,
      so the relative order of survivors is that of the buffer. */
  lemma {:induction false} PassAppend(a: seq<Particle>, b: seq<Particle>, width: real, height: real)
    ensures Pass(a + b, width, height) == Pass(a, width, height) + Pass(b, width, height)
  {
    if a == [] {
      assert a + b == b;
    } else {
      assert (a + b)[1..] == a[1..] + b;
      PassAppend(a[1..], b, width, height);
    }
  }

  /** Every survivor is an original particle aged by exactly one frame, and
      every particle that survives is kept. */
  lemma {:induction false} PassMembers(ps: seq<Particle>, width: real, height: real)
    ensures forall q :: q in Pass(ps, width, height) ==>
              exists p :: p in ps && Survives(p, width, height) && q == Moved(p) && q.life == p.life + 1.0
    ensures forall p :: p in ps && Survives(p, width, height) ==> Moved(p) in Pass(ps, width, height)
  {
    if ps != [] {
      PassMembers(ps[1..], width, height);
      var head := if Survives(ps[0], width, height) then [Moved(ps[0])] else [];
      assert Pass(ps, width, height) == head + Pass(ps[1..], width, height);
      forall q | q in Pass(ps, width, height)
        ensures exists p :: p in ps && Survives(p, width, height) && q == Moved(p) && q.life == p.life + 1.0
      {
        if q in head {
          assert ps[0] in ps;
        } else {
          assert q in Pass(ps[1..], width, height);
          var p :| p in ps[1..] && Survives(p, width, height) && q == Moved(p) && q.life == p.life + 1.0;
          assert p in ps;
        }
      }
      forall p | p in ps && Survives(p, width, height)
        ensures Moved(p) in Pass(ps, width, height)
      {
        if p != ps[0] {
          assert p in ps[1..];
        }
      }
    }
  }

  /** The buffer after a whole frame, as a function of the buffer before it. */
  function Frame(ps: seq<Particle>, density: real, trails: bool, pointer: Pointer,
                 draws: seq<Draw>, width: real, height: real, math: MathLib): (r: seq<Particle>)
    requires AllValid(draws)
    requires |draws| >= SpawnRate(density, trails, pointer.visible)
    ensures forall i :: 0 <= i < |r| ==> InView(r[i], width, height) && r[i].life < r[i].ttl
  {
    var rate := SpawnRate(density, trails, pointer.visible);
    var trimmed := Trimmed(ps, MaxParticles(density));
    var spawned := if rate > 0 && pointer.pointerType == "mouse" then SpawnBatch(pointer, draws[..rate], math) else [];
    Pass(trimmed + spawned, width, height)
  }

  /** After one frame the buffer holds at most the cap plus the spawn rate. */
  lemma FrameBound(ps: seq<Particle>, density: real, trails: bool, pointer: Pointer,
                   draws: seq<Draw>, width: real, height: real, math: MathLib)
    requires AllValid(draws)
    requires |draws| >= SpawnRate(density, trails, pointer.visible)
    ensures var cap := MaxParticles(density);
            |Frame(ps, density, trails, pointer, draws, width, height, math)|
              <= (if cap > 0 then cap else 0) + SpawnRate(density, trails, pointer.visible)
  {
  }

  class ParticleField {
    /** `particlesRef.current`, oldest first. */
    var particles: seq<Particle>
    /** `pointerRef.current`. */
    var pointer: Pointer

    constructor ()
      ensures particles == [] && pointer == Pointer(0.0, 0.0, 0.0, 0.0, false, "mouse")
    {
      particles := [];
      pointer := Pointer(0.0, 0.0, 0.0, 0.0, false, "mouse");
    }

    /** The effect that copies the shared cursor state into `pointerRef`. */
    method SyncPointer(s: CursorContext.State)
      modifies this
      ensures pointer == Pointer(s.x, s.y, s.vx, s.vy, s.visible, s.pointerType)
      ensures particles == old(particles)
    {
      pointer := Pointer(s.x, s.y, s.vx, s.vy, s.visible, s.pointerType);
    }

    /** `particles.splice(0, length - cap)` when over the cap. */
    method Trim(cap: int)
      modifies this
      ensures particles == Trimmed(old(particles), cap)
      ensures pointer == old(pointer)
    {
      if |particles| > cap {
        var deleteCount := |particles| - cap;
        if deleteCount > |particles| {
          deleteCount := |particles|;
        }
        particles := particles[deleteCount..];
      }
    }

    /** `spawnParticles(count)`: appends `count` particles at the pointer, one
        per draw, and nothing at all unless the pointer is a mouse. */
    method SpawnParticles(count: nat, draws: seq<Draw>, math: MathLib)
      requires count <= |draws| && AllValid(draws)
      modifies this
      ensures pointer.pointerType != "mouse" ==> particles == old(particles)
      ensures pointer.pointerType == "mouse" ==> particles == old(particles) + SpawnBatch(pointer, draws[..count], math)
      ensures pointer == old(pointer)
    {
      if pointer.pointerType != "mouse" {
        return;
      }
      var index := 0;
      while index < count
        invariant 0 <= index <= count
        invariant pointer == old(pointer)
        invariant particles == old(particles) + SpawnBatch(pointer, draws[..index], math)
      {
        particles := particles + [Spawned(pointer, draws[index], math)];
        assert draws[..index + 1] == draws[..index] + [draws[index]];
        index := index + 1;
      }
    }

    /** The backwards loop of the render pass: each particle is aged; expired
        ones are spliced out, the rest move and are spliced out when they leave
        the padded viewport. */
    method AgeAndCull(width: real, height: real)
      modifies this
      ensures particles == Pass(old(particles), width, height)
      ensures pointer == old(pointer)
    {
      ghost var original := particles;
      var index := |particles|;
      while index > 0
        invariant 0 <= index <= |original|
        invariant particles == original[..index] + Pass(original[index..], width, height)
        invariant pointer == old(pointer)
      {
        index := index - 1;
        ghost var rest := Pass(original[index + 1..], width, height);
        assert original[index..][1..] == original[index + 1..];
        assert particles[index] == original[index];
        var particle := particles[index];
        particle := particle.(life := particle.life + 1.0);
        particles := particles[index := particle];
        if particle.life >= particle.ttl {
          particles := particles[..index] + particles[index + 1..];
          assert particles == original[..index] + rest;
          continue;
        }
        particle := particle.(vx := particle.vx * 0.96, vy := particle.vy * 0.96);
        particle := particle.(x := particle.x + particle.vx * FrameScale, y := particle.y + particle.vy * FrameScale);
        particles := particles[index := particle];
        assert particle == Moved(original[index]);
        if particle.x < -Margin || particle.x > width + Margin || particle.y < -Margin || particle.y > height + Margin {
          particles := particles[..index] + particles[index + 1..];
          assert particles == original[..index] + rest;
          continue;
        }
        assert particles == original[..index] + [particle] + rest;
      }
      assert original[..0] == [] && original[0..] == original;
    }

    /** One frame of `render`: trim, spawn, then the ageing and culling pass. */
    method Render(density: real, trails: bool, draws: seq<Draw>, width: real, height: real, math: MathLib)
      requires AllValid(draws)
      requires |draws| >= SpawnRate(density, trails, pointer.visible)
      modifies this
      ensures particles == Frame(old(particles), density, trails, old(pointer), draws, width, height, math)
      ensures pointer == old(pointer)
    {
      var maxParticles := MaxParticles(density);
      var spawnRate := SpawnRate(density, trails, pointer.visible);
      Trim(maxParticles);
      ghost var trimmed := particles;
      if spawnRate > 0 {
        SpawnParticles(spawnRate, draws, math);
      }
      ghost var spawned := if spawnRate > 0 && pointer.pointerType == "mouse"
                           then SpawnBatch(pointer, draws[..spawnRate], math) else [];
      assert particles == trimmed + spawned;
      AgeAndCull(width, height);
    }
  }
}
