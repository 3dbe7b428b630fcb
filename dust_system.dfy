/** The dust kicked up by the galloping horse (src/world/DustSystem.js): a
    fixed pool of particles reused as a ring buffer. While the horse runs
    faster than 6 an emission timer releases a burst every interval at the
    next pool slots; every frame each live particle ages, drifts and grows
    fainter until its life runs out. The pool's records and the position,
    size and alpha buffers are arrays updated in place. `Math.random`
    draws are a parameter. */
module Dust {
  import opened Common

  /** One pooled particle. A fresh pool's records have no start size or
      alpha; they are 0 here, and only a live particle's are read. */
  datatype Particle = Particle(
    alive: bool, life: real, maxLife: real,
    vx: real, vy: real, vz: real,
    startSize: real, startAlpha: real)

  const DEAD: Particle := Particle(false, 0.0, 0.0, 0.0, 0.0, 0.0, 0.0, 0.0)

  /** The eight `Math.random()` values one emitted particle draws, in the
      order the source draws them. */
  datatype Draw = Draw(life: real, size: real, alpha: real, dx: real, dz: real, vx: real, vy: real, vz: real)

  predicate DrawValid(d: Draw)
  {
    && 0.0 <= d.life < 1.0 && 0.0 <= d.size < 1.0 && 0.0 <= d.alpha < 1.0
    && 0.0 <= d.dx < 1.0 && 0.0 <= d.dz < 1.0
    && 0.0 <= d.vx < 1.0 && 0.0 <= d.vy < 1.0 && 0.0 <= d.vz < 1.0
  }

  /** `POOL_SIZE` and `EMIT_INTERVAL` on touch devices and elsewhere. */
  function PoolSize(mobile: bool): nat
  {
    if mobile then 15 else 40
  }

  function EmitInterval(mobile: bool): real
  {
    if mobile then 0.12 else 0.06
  }

  /** Particles per burst. */
  function EmitCount(speed: real): (n: nat)
    ensures speed > 20.0 ==> n == 3
    ensures speed <= 20.0 ==> n == 2
  {
    if speed > 20.0 then 3 else 2
  }

  /** The particle `_emit` revives from one draw. */
  function Spawn(speed: real, d: Draw): (p: Particle)
    requires DrawValid(d)
    ensures p.alive && p.life == 0.0
    ensures 0.5 <= p.maxLife < 0.9
    ensures 1.5 <= p.startSize < 3.0 && 0.15 <= p.startAlpha < 0.25
    ensures 0.8 <= p.vy < 2.0
  {
    var spread := 1.5 + speed * 0.05;
    Particle(true, 0.0, 0.5 + d.life * 0.4,
             (d.vx - 0.5) * spread, 0.8 + d.vy * 1.2, (d.vz - 0.5) * spread,
             1.5 + d.size * 1.5, 0.15 + d.alpha * 0.1)
  }

  /** The start position `_emit` gives it, scattered around the horse. */
  function SpawnPosition(pos: Vec3, d: Draw): Vec3
  {
    Vec3(pos.x + (d.dx - 0.5) * 1.2, pos.y + 0.1, pos.z + (d.dz - 0.5) * 1.2)
  }

  /** `(n + 1) % size` for a slot `n` of the pool. */
  function NextSlot(n: nat, size: nat): (r: nat)
    requires n < size
    ensures r < size
    ensures r == (n + 1) % size
  {
    if n + 1 == size then
      ModUnique(n + 1, 1, 0, size);
      0
    else
      ModUnique(n + 1, 0, n + 1, size);
      n + 1
  }

  /** How far slot `i` lies after slot `start`, going round the ring. */
  function Offset(i: nat, start: nat, size: nat): (r: nat)
    requires i < size && start < size
    ensures r < size
  {
    if i >= start then i - start else i + size - start
  }

  /** The slot `j` places after `start`. */
  function SlotAfter(start: nat, j: nat, size: nat): (r: nat)
    requires start < size && j < size
    ensures r < size
    ensures r == (start + j) % size
    ensures Offset(r, start, size) == j
  {
    if start + j < size then
      ModUnique(start + j, 0, start + j, size);
      start + j
    else
      ModUnique(start + j, 1, start + j - size, size);
      start + j - size
  }

  /** The slot `j` places after `start` is the only one at that offset. */
  lemma OffsetOfSlot(start: nat, j: nat, size: nat)
    requires start < size && j < size
    ensures forall i :: 0 <= i < size ==> (Offset(i, start, size) == j <==> i == SlotAfter(start, j, size))
  {
  }

  /** The position of slot `i` in a buffer of xyz triples. */
  function PosOf(buf: array<real>, i: nat): Vec3
    requires 3 * i + 2 < buf.Length
    reads buf
  {
    Vec3(buf[3 * i], buf[3 * i + 1], buf[3 * i + 2])
  }

  /** The number of live particles. */
  function AliveCount(ps: seq<Particle>): (n: nat)
    ensures n <= |ps|
  {
    if ps == [] then 0
    else AliveCount(ps[..|ps| - 1]) + (if ps[|ps| - 1].alive then 1 else 0)
  }

  /** The fraction of its life a live particle has used after `dt` more. */
  function Age(p: Particle, dt: real): real
    requires p.maxLife > 0.0
  {
    (p.life + dt) / p.maxLife
  }

  /** A live particle's record after one frame: older, dead once its life
      is used up, otherwise pulled down by gravity. Dead particles stay as
      they are. */
  function Aged(p: Particle, dt: real): (q: Particle)
    requires p.alive ==> p.maxLife > 0.0
    ensures !p.alive ==> q == p
    ensures p.alive ==> q.alive == (Age(p, dt) < 1.0) && q.life == p.life + dt
  {
    if !p.alive then p
    else if Age(p, dt) >= 1.0 then p.(alive := false, life := p.life + dt)
    else p.(life := p.life + dt, vy := p.vy - 1.5 * dt)
  }

  /** The size at age `t`: it grows to three times the start size. */
  function Grown(size: real, t: real): real
  {
    size * (1.0 + t * 2.0)
  }

  /** The alpha at age `t`: it fades out linearly. */
  function Faded(alpha: real, t: real): real
  {
    alpha * (1.0 - t)
  }

  /** The size buffer entry after one frame. */
  function SizeAfter(p: Particle, dt: real, size: real): real
    requires p.alive ==> p.maxLife > 0.0
  {
    if !p.alive then size
    else if Age(p, dt) >= 1.0 then 0.0
    else Grown(p.startSize, Age(p, dt))
  }

  /** The alpha buffer entry after one frame. */
  function AlphaAfter(p: Particle, dt: real, alpha: real): real
    requires p.alive ==> p.maxLife > 0.0
  {
    if !p.alive then alpha
    else if Age(p, dt) >= 1.0 then 0.0
    else Faded(p.startAlpha, Age(p, dt))
  }

  /** The position after one frame: a surviving particle drifts by its
      velocity before gravity acts on it; the others stay put. */
  function Drift(p: Particle, dt: real, at: Vec3): Vec3
    requires p.alive ==> p.maxLife > 0.0
  {
    if !p.alive || Age(p, dt) >= 1.0 then at
    else Vec3(at.x + p.vx * dt, at.y + p.vy * dt, at.z + p.vz * dt)
  }

  /** A particle just revived by an emission. */
  predicate Fresh(p: Particle)
  {
    p.alive && p.life == 0.0 && p.maxLife >= 0.5
  }

  /** Over its life a particle grows from its start size towards three
      times it and fades from its start alpha towards 0; once its life is
      used up it dies with size and alpha 0. */
  lemma LifeCycle(p: Particle, dt: real, size: real, alpha: real)
    requires p.alive && p.maxLife > 0.0 && p.startSize > 0.0 && p.startAlpha > 0.0
    ensures 0.0 <= Age(p, dt) < 1.0 ==>
      && p.startSize <= SizeAfter(p, dt, size) < 3.0 * p.startSize
      && 0.0 < AlphaAfter(p, dt, alpha) <= p.startAlpha
    ensures Age(p, dt) >= 1.0 ==>
      !Aged(p, dt).alive && SizeAfter(p, dt, size) == 0.0 && AlphaAfter(p, dt, alpha) == 0.0
  {
    var t := Age(p, dt);
    if 0.0 <= t < 1.0 {
      Grows(p.startSize, t);
      Fades(p.startAlpha, t);
    }
  }

  /** A size scaled by `1 + 2t` for t in [0, 1) stays in [s, 3s). */
  lemma Grows(s: real, t: real)
    requires s > 0.0 && 0.0 <= t < 1.0
    ensures s <= Grown(s, t) < 3.0 * s
  {
    MulNonneg(s, t * 2.0);
    assert s * (1.0 + t * 2.0) == s + s * (t * 2.0);
    MulPos(s, 2.0 - t * 2.0);
    assert s * (2.0 - t * 2.0) == 2.0 * s - s * (t * 2.0);
  }

  /** An alpha scaled by `1 - t` for t in [0, 1) stays in (0, a]. */
  lemma Fades(a: real, t: real)
    requires a > 0.0 && 0.0 <= t < 1.0
    ensures 0.0 < Faded(a, t) <= a
  {
    MulPos(a, 1.0 - t);
    MulAtMostOne(a, 1.0 - t);
  }

  /** Taking `b` intervals off a timer takes `b` off its quotient by the
      interval. */
  lemma DivShift(t: real, i: real, b: real)
    requires i > 0.0
    ensures (t - b * i) / i == t / i - b
  {
    var q := t / i;
    var r := (t - b * i) / i;
    assert q * i == t;
    assert r * i == t - b * i;
    assert (q - b) * i == t - b * i;
    ZeroProduct(r - (q - b), i);
  }

  /** The interval between bursts: halved above speed 20. */
  function BurstInterval(base: real, absSpeed: real): (i: real)
    requires base > 0.0
    ensures 0.0 < i <= base
    ensures absSpeed > 20.0 ==> i * 2.0 == base
  {
    if absSpeed > 20.0 then base * 0.5 else base
  }

  /** A timer that ends in [0, interval) after `b` bursts from an
      accumulated `t` has released exactly `floor(t / interval)` of them. */
  lemma {:induction false} BurstsAreFloor(t: real, i: real, b: nat)
    requires i > 0.0 && 0.0 <= t - b as real * i < i
    ensures b == (t / i).Floor
  {
    var r := (t - b as real * i) / i;
    DivShift(t, i, b as real);
    assert r * i == t - b as real * i;
    assert 0.0 <= r by {
      if r < 0.0 {
        MulPos(-r, i);
      }
    }
    assert r < 1.0 by {
      if r >= 1.0 {
        MulMono(i, 1.0, r);
      }
    }
    assert b as real <= t / i < b as real + 1.0;
  }

  /** The draws of burst `k`: three particles' worth. */
  function Burst(rng: nat -> Draw, k: nat): (ds: seq<Draw>)
    ensures |ds| == 3
  {
    [rng(3 * k), rng(3 * k + 1), rng(3 * k + 2)]
  }

  lemma MulAtLeast(d: int, n: int)
    requires d >= 1 && n > 0
    ensures d * n >= n
  {
    assert d * n == (d - 1) * n + n;
    assert (d - 1) * n >= 0;
  }

  /** `/` and `%` are determined by any quotient-remainder split. */
  lemma ModUnique(z: int, k: int, r: int, n: int)
    requires n > 0 && 0 <= r < n && z == k * n + r
    ensures z % n == r && z / n == k
  {
    var k', r' := z / n, z % n;
    assert z == k' * n + r';
    assert (k - k') * n == r' - r;
    if k > k' {
      MulAtLeast(k - k', n);
    } else if k < k' {
      MulAtLeast(k' - k, n);
    }
  }

  /** Advancing round the ring in two steps is advancing by their sum. */
  lemma ModAdd(a: nat, c: nat, n: int)
    requires n > 0
    ensures (a % n + c) % n == (a + c) % n
  {
    var q := a / n;
    var q2, r2 := (a % n + c) / n, (a % n + c) % n;
    assert a % n + c == q2 * n + r2;
    assert a + c == (q + q2) * n + r2;
    ModUnique(a + c, q + q2, r2, n);
  }

  /** A number's remainder is at most the number itself. */
  lemma ModAtMost(x: nat, n: nat)
    requires n > 0
    ensures x % n <= x
  {
    if x < n {
      ModUnique(x, 0, x, n);
    }
  }

  /** Two particles fewer than `n` apart land on different slots. */
  lemma CloseApart(a: nat, d: nat, n: nat)
    requires 0 < d < n
    ensures (a + d) % n != a % n
  {
    ModAdd(a, d, n);
    var r := a % n;
    if r + d < n {
      ModUnique(r + d, 0, r + d, n);
    } else {
      ModUnique(r + d, 1, r + d - n, n);
    }
  }

  /** The draw particle `m` of a run of bursts of `c` is revived from:
      particle `m % c` of burst `m / c`. */
  function DrawOf(rng: nat -> Draw, m: nat, c: nat): Draw
    requires c > 0
  {
    rng(3 * (m / c) + m % c)
  }

  /** Of the first `e` particles emitted round a ring of `n` slots from
      offset 0, the last to land at offset `j`: each later one overwrites
      the slot. */
  function LastHit(j: nat, e: nat, n: nat): (m: nat)
    requires j < n && j < e
    ensures j <= m < e && m % n == j
    ensures forall m' :: m < m' < e ==> m' % n != j
  {
    ModUnique(j, 0, j, n);
    if (e - 1) % n == j then e - 1 else LastHit(j, e - 1, n)
  }

  /** A particle that lands at offset `j`, with no later one up to `e`
      landing there, is the last hit. */
  lemma LastHitUnique(j: nat, e: nat, n: nat, m: nat)
    requires j < n && m < e && m % n == j
    requires forall m' :: m < m' < e ==> m' % n != j
    ensures j < e && LastHit(j, e, n) == m
  {
    ModAtMost(m, n);
  }

  /** A burst of `c` particles, numbered from `e`, released at the slot `e`
      places after `start`: the slot at offset `k` from the burst's first
      slot is hit by particle `e + k` when `k < c`, and otherwise keeps
      its last hit. */
  lemma BurstHits(start: nat, e: nat, c: nat, n: nat, i: nat)
    requires start < n && i < n && c <= n
    ensures var j, k := Offset(i, start, n), Offset(i, (start + e) % n, n);
      && (k < c ==> j < e + c && LastHit(j, e + c, n) == e + k)
      && (k >= c ==> (j < e + c <==> j < e) && (j < e ==> LastHit(j, e + c, n) == LastHit(j, e, n)))
  {
    var s := (start + e) % n;
    var j, k := Offset(i, start, n), Offset(i, s, n);
    var h := (e + k) % n;
    OffsetOfSlot(s, k, n);
    ModAdd(start + e, k, n);
    ModAdd(e + k, start, n);
    OffsetOfSlot(start, h, n);
    assert j == h;
    if k < c {
      ModAtMost(e + k, n);
      forall m' | e + k < m' < e + c
        ensures m' % n != j
      {
        CloseApart(e + k, m' - (e + k), n);
      }
      LastHitUnique(j, e + c, n, e + k);
    } else {
      forall m' | e <= m' < e + c
        ensures m' % n != j
      {
        CloseApart(m', e + k - m', n);
      }
      if e <= j < e + c {
        ModUnique(j, 0, j, n);
      }
      if j < e {
        LastHitUnique(j, e + c, n, LastHit(j, e, n));
      }
    }
  }

  /** The particle and position a slot at offset `j` from the ring index
      holds after `e` particles were emitted by bursts of `c`: those of the
      last particle to land there, or `p0` at `at0` when none did. */
  function AfterRelease(j: nat, e: nat, c: nat, n: nat, pos: Vec3, speed: real, rng: nat -> Draw,
                        p0: Particle, at0: Vec3): (Particle, Vec3)
    requires j < n && c > 0
    requires forall m :: DrawValid(rng(m))
  {
    if j < e then
      var d := DrawOf(rng, LastHit(j, e, n), c);
      (Spawn(speed, d), SpawnPosition(pos, d))
    else (p0, at0)
  }

  /** Particle `k` of burst `b` draws what the burst hands it. */
  lemma DrawOfBurst(rng: nat -> Draw, b: nat, c: nat, k: nat)
    requires k < c <= 3
    ensures DrawOf(rng, Emitted(b, c) + k, c) == Burst(rng, b)[k]
  {
    ModUnique(Emitted(b, c) + k, b, k, c);
  }

  /** One more burst `b` of `c`, released at the ring position after the
      first `e = b * c` particles, keeps every slot's record in step with
      `AfterRelease`: `now` is what the burst leaves in slot `i`, given it
      held `prev`. */
  lemma ReleaseStep(start: nat, b: nat, c: nat, n: nat, i: nat, pos: Vec3, speed: real, rng: nat -> Draw,
                    p0: Particle, at0: Vec3, prev: (Particle, Vec3), now: (Particle, Vec3))
    requires start < n && i < n && 0 < c <= 3 && c <= n
    requires forall m :: DrawValid(rng(m))
    requires prev == AfterRelease(Offset(i, start, n), Emitted(b, c), c, n, pos, speed, rng, p0, at0)
    requires var k := Offset(i, (start + Emitted(b, c)) % n, n);
      now == if k < c then (Spawn(speed, Burst(rng, b)[k]), SpawnPosition(pos, Burst(rng, b)[k])) else prev
    ensures now == AfterRelease(Offset(i, start, n), Emitted(b, c) + c, c, n, pos, speed, rng, p0, at0)
  {
    var e := Emitted(b, c);
    var j, k := Offset(i, start, n), Offset(i, (start + e) % n, n);
    BurstHits(start, e, c, n, i);
    if k < c {
      DrawOfBurst(rng, b, c, k);
      assert AfterRelease(j, e + c, c, n, pos, speed, rng, p0, at0) ==
        (Spawn(speed, Burst(rng, b)[k]), SpawnPosition(pos, Burst(rng, b)[k]));
    } else {
      assert AfterRelease(j, e + c, c, n, pos, speed, rng, p0, at0) == AfterRelease(j, e, c, n, pos, speed, rng, p0, at0);
    }
  }

  /** `ReleaseStep` for every slot of a pool at once: the records `ps` at
      positions `qs` that burst `b` turned into the pool `pool` with
      position buffer `buf`. */
  lemma ReleaseStepAll(start: nat, b: nat, c: nat, n: nat, pos: Vec3, speed: real, rng: nat -> Draw,
                       p0s: seq<Particle>, at0s: seq<Vec3>, ps: seq<Particle>, qs: seq<Vec3>,
                       pool: array<Particle>, buf: array<real>)
    requires start < n && 0 < c <= 3 && c <= n
    requires |p0s| == n && |at0s| == n && |ps| == n && |qs| == n && pool.Length == n && buf.Length == 3 * n
    requires forall m :: DrawValid(rng(m))
    requires forall i :: 0 <= i < n ==>
      (ps[i], qs[i]) == AfterRelease(Offset(i, start, n), Emitted(b, c), c, n, pos, speed, rng, p0s[i], at0s[i])
    requires forall i :: 0 <= i < n ==>
      var k := Offset(i, (start + Emitted(b, c)) % n, n);
      && pool[i] == (if k < c then Spawn(speed, Burst(rng, b)[k]) else ps[i])
      && PosOf(buf, i) == (if k < c then SpawnPosition(pos, Burst(rng, b)[k]) else qs[i])
    ensures forall i :: 0 <= i < n ==>
      (pool[i], PosOf(buf, i)) ==
        AfterRelease(Offset(i, start, n), Emitted(b, c) + c, c, n, pos, speed, rng, p0s[i], at0s[i])
  {
    forall i | 0 <= i < n
      ensures (pool[i], PosOf(buf, i)) ==
        AfterRelease(Offset(i, start, n), Emitted(b, c) + c, c, n, pos, speed, rng, p0s[i], at0s[i])
    {
      ReleaseStep(start, b, c, n, i, pos, speed, rng, p0s[i], at0s[i], (ps[i], qs[i]), (pool[i], PosOf(buf, i)));
    }
  }

  /** The time `b` bursts take off the timer. */
  function Spent(b: nat, interval: real): real
  {
    b as real * interval
  }

  /** The particles `b` bursts of `c` emit. */
  function Emitted(b: nat, c: nat): nat
  {
    b * c
  }

  /** One more burst takes one more interval and emits `c` more. */
  lemma BurstStep(b: nat, interval: real, c: nat)
    ensures Spent(b + 1, interval) == Spent(b, interval) + interval
    ensures Emitted(b + 1, c) == Emitted(b, c) + c
  {
    assert (b + 1) as real * interval == b as real * interval + interval;
    assert (b + 1) * c == b * c + c;
  }

  class DustSystem {
    /** `POOL_SIZE`. */
    const poolSize: nat
    /** `EMIT_INTERVAL`. */
    const emitInterval: real
    /** `_particles`. */
    const particles: array<Particle>
    /** `_posArr`, `_sizeArr`, `_alphaArr`: the geometry's buffers. */
    const posArr: array<real>
    const sizeArr: array<real>
    const alphaArr: array<real>
    var activeCount: nat
    var prevActive: nat
    var emitTimer: real
    var nextIdx: nat

    /** The buffers have the pool's shape, the ring index is a slot, and a
        live particle has a positive life span. */
    ghost predicate Valid()
      reads this, particles
    {
      && poolSize >= 15 && emitInterval > 0.0
      && particles.Length == poolSize && posArr.Length == 3 * poolSize
      && sizeArr.Length == poolSize && alphaArr.Length == poolSize
      && posArr != sizeArr && posArr != alphaArr && sizeArr != alphaArr
      && nextIdx < poolSize
      && (forall i :: 0 <= i < poolSize ==> particles[i].alive ==> particles[i].maxLife >= 0.5)
    }

    /** The positions of the pool's slots, read from the buffer. */
    ghost function Positions(): (qs: seq<Vec3>)
      requires Valid()
      reads this, particles, posArr
      ensures |qs| == poolSize && forall k :: 0 <= k < poolSize ==> qs[k] == PosOf(posArr, k)
    {
      seq(poolSize, k requires 0 <= k < poolSize reads posArr => PosOf(posArr, k))
    }

    /** A pool of dead particles with zero sizes and alphas. */
    constructor (mobile: bool)
      ensures Valid()
      ensures poolSize == PoolSize(mobile) && emitInterval == EmitInterval(mobile)
      ensures fresh(particles) && fresh(posArr) && fresh(sizeArr) && fresh(alphaArr)
      ensures forall i :: 0 <= i < poolSize ==> particles[i] == DEAD && sizeArr[i] == 0.0 && alphaArr[i] == 0.0
      ensures forall i :: 0 <= i < 3 * poolSize ==> posArr[i] == 0.0
      ensures activeCount == 0 && emitTimer == 0.0 && nextIdx == 0
    {
      poolSize := PoolSize(mobile);
      emitInterval := EmitInterval(mobile);
      particles := new Particle[PoolSize(mobile)](_ => DEAD);
      posArr := new real[3 * PoolSize(mobile)](_ => 0.0);
      sizeArr := new real[PoolSize(mobile)](_ => 0.0);
      alphaArr := new real[PoolSize(mobile)](_ => 0.0);
      activeCount := 0;
      prevActive := 0;
      emitTimer := 0.0;
      nextIdx := 0;
    }

    /** Revives slot `i` as particle `p` at position `at`, leaving the other
        slots alone. */
    method Revive(i: nat, p: Particle, at: Vec3)
      requires Valid() && i < poolSize && p.maxLife >= 0.5
      modifies particles, posArr
      ensures Valid()
      ensures forall k :: 0 <= k < poolSize ==>
        particles[k] == if k == i then p else old(particles[k])
      ensures forall k :: 0 <= k < poolSize ==>
        PosOf(posArr, k) == if k == i then at else old(PosOf(posArr, k))
    {
      particles[i] := p;
      posArr[3 * i] := at.x;
      posArr[3 * i + 1] := at.y;
      posArr[3 * i + 2] := at.z;
    }

    /** `_emit(pos, speed)`: a burst of `EmitCount(speed)` particles revived
        at the slots following the ring index, which advances past them;
        every other slot is untouched. */
    method Emit(pos: Vec3, speed: real, draws: seq<Draw>)
      requires Valid()
      requires |draws| == 3 && forall j :: 0 <= j < 3 ==> DrawValid(draws[j])
      modifies this`nextIdx, particles, posArr
      ensures Valid()
      ensures nextIdx == (old(nextIdx) + EmitCount(speed)) % poolSize
      ensures forall i :: 0 <= i < poolSize ==> particles[i] == old(particles[i]) || Fresh(particles[i])
      ensures forall i :: 0 <= i < poolSize ==>
        var j := Offset(i, old(nextIdx), poolSize);
        && particles[i] == (if j < EmitCount(speed) then Spawn(speed, draws[j]) else old(particles[i]))
        && PosOf(posArr, i) == (if j < EmitCount(speed) then SpawnPosition(pos, draws[j]) else old(PosOf(posArr, i)))
    {
      var count := EmitCount(speed);
      ghost var start := nextIdx;
      for j := 0 to count
        invariant nextIdx == SlotAfter(start, j, poolSize)
        invariant forall i :: 0 <= i < poolSize ==>
          particles[i] == if Offset(i, start, poolSize) < j
                          then Spawn(speed, draws[Offset(i, start, poolSize)])
                          else old(particles[i])
        invariant forall i :: 0 <= i < poolSize ==>
          PosOf(posArr, i) == if Offset(i, start, poolSize) < j
                                  then SpawnPosition(pos, draws[Offset(i, start, poolSize)])
                                  else old(PosOf(posArr, i))
        invariant Valid()
      {
        OffsetOfSlot(start, j, poolSize);
        var i := nextIdx;
        nextIdx := NextSlot(nextIdx, poolSize);
        Revive(i, Spawn(speed, draws[j]), SpawnPosition(pos, draws[j]));
      }
    }

    /** Burst `b` of an emission run that started at ring index `start`
        over records `p0s` at positions `at0s`: it releases particles
        `b * c` to `b * c + c - 1` of the run, keeping every slot in step
        with `AfterRelease`. */
    method ReleaseBurst(ghost start: nat, b: nat, pos: Vec3, absSpeed: real, rng: nat -> Draw,
                        ghost p0s: seq<Particle>, ghost at0s: seq<Vec3>)
      requires Valid() && start < poolSize && |p0s| == poolSize && |at0s| == poolSize
      requires forall n :: DrawValid(rng(n))
      requires nextIdx == (start + Emitted(b, EmitCount(absSpeed))) % poolSize
      requires forall i :: 0 <= i < poolSize ==>
        (particles[i], PosOf(posArr, i)) ==
          AfterRelease(Offset(i, start, poolSize), Emitted(b, EmitCount(absSpeed)), EmitCount(absSpeed),
                       poolSize, pos, absSpeed, rng, p0s[i], at0s[i])
      modifies this`nextIdx, particles, posArr
      ensures Valid()
      ensures nextIdx == (start + Emitted(b + 1, EmitCount(absSpeed))) % poolSize
      ensures forall i :: 0 <= i < poolSize ==>
        (particles[i], PosOf(posArr, i)) ==
          AfterRelease(Offset(i, start, poolSize), Emitted(b + 1, EmitCount(absSpeed)), EmitCount(absSpeed),
                       poolSize, pos, absSpeed, rng, p0s[i], at0s[i])
    {
      var c := EmitCount(absSpeed);
      ghost var e := Emitted(b, c);
      ghost var ps := particles[..];
      ghost var qs := Positions();
      Emit(pos, absSpeed, Burst(rng, b));
      BurstStep(b, 0.0, c);
      ReleaseStepAll(start, b, c, poolSize, pos, absSpeed, rng, p0s, at0s, ps, qs, particles, posArr);
      ModAdd(start + e, c, poolSize);
    }

    /** The emission loop: one burst per whole `interval` in the timer,
        which keeps the remainder. Burst `k` uses draws `3k` to `3k + 2` of
        `rng`. Particle `m` of the run lands `m` slots after the ring
        index, so each slot ends up holding the last particle that landed
        on it and the slots no particle reached are untouched. */
    method Release(interval: real, pos: Vec3, absSpeed: real, rng: nat -> Draw) returns (bursts: nat)
      requires Valid() && interval > 0.0
      requires forall n :: DrawValid(rng(n))
      modifies this`emitTimer, this`nextIdx, particles, posArr
      ensures Valid()
      ensures emitTimer < interval
      ensures emitTimer == old(emitTimer) - bursts as real * interval
      ensures old(emitTimer) >= 0.0 ==> 0.0 <= emitTimer && bursts == (old(emitTimer) / interval).Floor
      ensures nextIdx == (old(nextIdx) + bursts * EmitCount(absSpeed)) % poolSize
      ensures forall i :: 0 <= i < poolSize ==>
        (particles[i], PosOf(posArr, i)) ==
          AfterRelease(Offset(i, old(nextIdx), poolSize), Emitted(bursts, EmitCount(absSpeed)), EmitCount(absSpeed),
                       poolSize, pos, absSpeed, rng, old(particles[i]), old(PosOf(posArr, i)))
    {
      bursts := 0;
      ghost var start := nextIdx;
      ghost var total := emitTimer;
      ghost var c := EmitCount(absSpeed);
      ghost var p0s := particles[..];
      ghost var at0s := seq(poolSize, k requires 0 <= k && 3 * k + 2 < posArr.Length reads posArr => PosOf(posArr, k));
      while emitTimer >= interval
        invariant Valid()
        invariant emitTimer == total - Spent(bursts, interval)
        invariant total >= 0.0 ==> emitTimer >= 0.0
        invariant nextIdx == (start + Emitted(bursts, c)) % poolSize
        invariant forall i :: 0 <= i < poolSize ==>
          (particles[i], PosOf(posArr, i)) ==
            AfterRelease(Offset(i, start, poolSize), Emitted(bursts, c), c, poolSize, pos, absSpeed, rng, p0s[i], at0s[i])
        decreases (emitTimer / interval).Floor
      {
        DivShift(emitTimer, interval, 1.0);
        emitTimer := emitTimer - interval;
        ReleaseBurst(start, bursts, pos, absSpeed, rng, p0s, at0s);
        BurstStep(bursts, interval, c);
        bursts := bursts + 1;
      }
      if total >= 0.0 {
        BurstsAreFloor(total, interval, bursts);
      }
    }

    /** The emission half of `update(dt, horsePosition, speed)`: above speed
        6 the timer accumulates `dt` and releases one burst per elapsed
        interval, keeping the remainder; otherwise it resets and nothing is
        emitted. */
    method EmitPhase(dt: real, pos: Vec3, absSpeed: real, rng: nat -> Draw) returns (bursts: nat)
      requires Valid()
      requires forall n :: DrawValid(rng(n))
      modifies this`emitTimer, this`nextIdx, particles, posArr
      ensures Valid()
      ensures absSpeed <= 6.0 ==> emitTimer == 0.0 && bursts == 0
      ensures absSpeed > 6.0 ==>
        var interval := BurstInterval(emitInterval, absSpeed);
        && emitTimer < interval
        && emitTimer == old(emitTimer) + dt - bursts as real * interval
        && (old(emitTimer) + dt >= 0.0 ==> 0.0 <= emitTimer && bursts == ((old(emitTimer) + dt) / interval).Floor)
      ensures nextIdx == (old(nextIdx) + bursts * EmitCount(absSpeed)) % poolSize
      ensures forall i :: 0 <= i < poolSize ==>
        (particles[i], PosOf(posArr, i)) ==
          AfterRelease(Offset(i, old(nextIdx), poolSize), Emitted(bursts, EmitCount(absSpeed)), EmitCount(absSpeed),
                       poolSize, pos, absSpeed, rng, old(particles[i]), old(PosOf(posArr, i)))
    {
      if absSpeed > 6.0 {
        emitTimer := emitTimer + dt;
        bursts := Release(BurstInterval(emitInterval, absSpeed), pos, absSpeed, rng);
      } else {
        emitTimer := 0.0;
        bursts := 0;
        assert nextIdx % poolSize == nextIdx;
      }
    }

    /** Slot `k` holds particle `p0` aged by `dt`, with the buffers
        updated from their entries `size0`, `alpha0` and `at0`. */
    ghost predicate AgedAt(k: nat, dt: real, p0: Particle, size0: real, alpha0: real, at0: Vec3)
      requires Valid() && k < poolSize && (p0.alive ==> p0.maxLife > 0.0)
      reads this, particles, posArr, sizeArr, alphaArr
    {
      && particles[k] == Aged(p0, dt)
      && sizeArr[k] == SizeAfter(p0, dt, size0)
      && alphaArr[k] == AlphaAfter(p0, dt, alpha0)
      && PosOf(posArr, k) == Drift(p0, dt, at0)
    }

    /** Ages slot `i` by one frame; the other slots are untouched. */
    method AgeSlot(i: nat, dt: real) returns (survives: bool)
      requires Valid() && i < poolSize
      modifies particles, posArr, sizeArr, alphaArr
      ensures Valid()
      ensures survives == Aged(old(particles[i]), dt).alive
      ensures AgedAt(i, dt, old(particles[i]), old(sizeArr[i]), old(alphaArr[i]), old(PosOf(posArr, i)))
      ensures forall k :: 0 <= k < poolSize && k != i ==>
        && particles[k] == old(particles[k]) && sizeArr[k] == old(sizeArr[k])
        && alphaArr[k] == old(alphaArr[k]) && PosOf(posArr, k) == old(PosOf(posArr, k))
    {
      var p := particles[i];
      survives := false;
      if !p.alive {
        return;
      }
      var t := Age(p, dt);
      if t >= 1.0 {
        particles[i] := p.(alive := false, life := p.life + dt);
        sizeArr[i] := 0.0;
        alphaArr[i] := 0.0;
        return;
      }
      survives := true;
      posArr[3 * i] := posArr[3 * i] + p.vx * dt;
      posArr[3 * i + 1] := posArr[3 * i + 1] + p.vy * dt;
      posArr[3 * i + 2] := posArr[3 * i + 2] + p.vz * dt;
      particles[i] := p.(life := p.life + dt, vy := p.vy - 1.5 * dt);
      sizeArr[i] := p.startSize * (1.0 + t * 2.0);
      alphaArr[i] := p.startAlpha * (1.0 - t);
    }

    /** The lifecycle half of `update`: every slot is aged by one frame, and
        the number of particles still alive is counted. */
    method AgeAll(dt: real) returns (active: nat)
      requires Valid()
      modifies particles, posArr, sizeArr, alphaArr
      ensures Valid()
      ensures forall k :: 0 <= k < poolSize ==>
        && particles[k] == Aged(old(particles[k]), dt)
        && sizeArr[k] == SizeAfter(old(particles[k]), dt, old(sizeArr[k]))
        && alphaArr[k] == AlphaAfter(old(particles[k]), dt, old(alphaArr[k]))
        && PosOf(posArr, k) == Drift(old(particles[k]), dt, old(PosOf(posArr, k)))
      ensures active == AliveCount(particles[..])
    {
      active := 0;
      for i := 0 to poolSize
        invariant Valid()
        invariant forall k :: 0 <= k < i ==>
          AgedAt(k, dt, old(particles[k]), old(sizeArr[k]), old(alphaArr[k]), old(PosOf(posArr, k)))
        invariant forall k :: i <= k < poolSize ==>
          && particles[k] == old(particles[k]) && sizeArr[k] == old(sizeArr[k])
          && alphaArr[k] == old(alphaArr[k]) && PosOf(posArr, k) == old(PosOf(posArr, k))
        invariant active == AliveCount(particles[..i])
      {
        ghost var before := particles[..];
        var survives := AgeSlot(i, dt);
        assert particles[..i] == before[..i];
        assert particles[..i + 1][..i] == particles[..i];
        if survives {
          active := active + 1;
        }
      }
      assert particles[..] == particles[..poolSize];
    }

    /** `update(dt, horsePosition, speed)`: emission, then the lifecycle.
        `mid` and `midPos` are the pool and its positions once the bursts
        are out: each slot holds the last particle emitted onto it, or its
        old record. Every slot is then aged from there: dead particles are
        untouched, and a particle whose life is used up dies with size and
        alpha 0. The live count is kept, and the buffers are flagged for
        upload when this frame or the previous one had live particles. */
    method Update(dt: real, pos: Vec3, speed: real, rng: nat -> Draw)
      returns (bursts: nat, dirty: bool, ghost mid: seq<Particle>, ghost midPos: seq<Vec3>)
      requires Valid()
      requires forall n :: DrawValid(rng(n))
      modifies this`emitTimer, this`nextIdx, this`activeCount, this`prevActive, particles, posArr, sizeArr, alphaArr
      ensures Valid()
      ensures Abs(speed) <= 6.0 ==> emitTimer == 0.0 && bursts == 0
      ensures Abs(speed) > 6.0 ==>
        var interval := BurstInterval(emitInterval, Abs(speed));
        && emitTimer < interval
        && emitTimer == old(emitTimer) + dt - bursts as real * interval
        && (old(emitTimer) + dt >= 0.0 ==> 0.0 <= emitTimer && bursts == ((old(emitTimer) + dt) / interval).Floor)
      ensures nextIdx == (old(nextIdx) + bursts * EmitCount(Abs(speed))) % poolSize
      ensures |mid| == poolSize && |midPos| == poolSize
      ensures forall k :: 0 <= k < poolSize ==>
        (mid[k], midPos[k]) ==
          AfterRelease(Offset(k, old(nextIdx), poolSize), Emitted(bursts, EmitCount(Abs(speed))), EmitCount(Abs(speed)),
                       poolSize, pos, Abs(speed), rng, old(particles[k]), old(PosOf(posArr, k)))
      ensures forall k :: 0 <= k < poolSize ==> mid[k] == old(particles[k]) || Fresh(mid[k])
      ensures forall k :: 0 <= k < poolSize ==> mid[k].alive ==> mid[k].maxLife > 0.0
      ensures forall k :: 0 <= k < poolSize ==>
        && particles[k] == Aged(mid[k], dt)
        && sizeArr[k] == SizeAfter(mid[k], dt, old(sizeArr[k]))
        && alphaArr[k] == AlphaAfter(mid[k], dt, old(alphaArr[k]))
        && PosOf(posArr, k) == Drift(mid[k], dt, midPos[k])
      ensures activeCount == AliveCount(particles[..]) && activeCount <= poolSize
      ensures dirty == (activeCount > 0 || old(prevActive) > 0)
      ensures prevActive == activeCount
    {
      bursts := EmitPhase(dt, pos, Abs(speed), rng);
      mid := particles[..];
      midPos := Positions();
      var active := AgeAll(dt);
      activeCount := active;
      dirty := active > 0 || prevActive > 0;
      prevActive := active;
    }
  }
}
