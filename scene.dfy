/**
 * The ambient "AI trading" background: fifteen network nodes that drift and
 * bounce, thirty data particles that drift and wrap around, and eight
 * indicator bars whose phase advances every frame.  Only the state updates
 * are modelled; everything the frame draws is derived from this state.
 */
module Scene {
  import opened Wrappers
  import opened Pairs

  const NodeCount: nat := 15
  const ParticleCount: nat := 30
  const IndicatorCount: nat := 8

  /** Two connected nodes are drawn with a line when closer than this. */
  const LinkDistance: real := 200.0

  /** `Math.PI` as the double the browser uses. */
  const Pi: real := 3.141592653589793

  /** The default size of an HTML canvas that no container has resized. */
  const DefaultCanvasWidth: nat := 300
  const DefaultCanvasHeight: nat := 150

  /** The height the canvas takes when its container reports a height of 0. */
  const FallbackHeight: nat := 500

  /** The content box of the element that hosts the canvas. */
  datatype Box = Box(clientWidth: nat, clientHeight: nat)

  datatype Node = Node(x: real, y: real, vx: real, vy: real, radius: real, pulse: real)
  datatype Particle = Particle(x: real, y: real, vx: real, vy: real, size: real, opacity: real, life: real)
  datatype Indicator = Indicator(x: real, y: real, baseY: real, height: real, width: real, pulse: real, speed: real)

  /** The `Math.random()` values one entity consumes when it is created, in call order. */
  datatype NodeDraw = NodeDraw(rx: real, ry: real, rvx: real, rvy: real, rRadius: real, rPulse: real)
  datatype ParticleDraw = ParticleDraw(rx: real, ry: real, rvx: real, rvy: real, rSize: real, rOpacity: real, rLife: real)
  datatype IndicatorDraw = IndicatorDraw(ry: real, rBaseY: real, rHeight: real, rPulse: real, rSpeed: real)

  /** What `Math.random()` promises: a value in [0, 1). */
  predicate Unit(r: real) { 0.0 <= r < 1.0 }

  predicate NodeDrawOk(d: NodeDraw) {
    Unit(d.rx) && Unit(d.ry) && Unit(d.rvx) && Unit(d.rvy) && Unit(d.rRadius) && Unit(d.rPulse)
  }

  predicate ParticleDrawOk(d: ParticleDraw) {
    Unit(d.rx) && Unit(d.ry) && Unit(d.rvx) && Unit(d.rvy) && Unit(d.rSize) && Unit(d.rOpacity) && Unit(d.rLife)
  }

  predicate IndicatorDrawOk(d: IndicatorDraw) {
    Unit(d.ry) && Unit(d.rBaseY) && Unit(d.rHeight) && Unit(d.rPulse) && Unit(d.rSpeed)
  }

  /** A random draw stretched over an extent: `Math.random() * extent`. */
  function Scale(r: real, extent: real): real { r * extent }

  function Min(a: real, b: real): real { if a <= b then a else b }

  function Abs(a: real): real { if a < 0.0 then -a else a }

  predicate Within(v: real, extent: real) { 0.0 <= v <= extent }

  // ---------------------------------------------------------------- sizing

  /** The canvas height `resizeCanvas` takes from its container: `clientHeight || 500`. */
  function CanvasHeight(clientHeight: nat): (h: nat)
    ensures h > 0
    ensures clientHeight > 0 ==> h == clientHeight
    ensures clientHeight == 0 ==> h == FallbackHeight
  {
    if clientHeight == 0 then FallbackHeight else clientHeight
  }

  // ------------------------------------------------------------ creation

  function InitNode(d: NodeDraw, w: real, h: real): Node {
    Node(Scale(d.rx, w), Scale(d.ry, h), (d.rvx - 0.5) * 0.3, (d.rvy - 0.5) * 0.3, 3.0 + d.rRadius * 2.0, d.rPulse * Pi * 2.0)
  }

  function InitParticle(d: ParticleDraw, w: real, h: real): Particle {
    Particle(Scale(d.rx, w), Scale(d.ry, h), (d.rvx - 0.5) * 0.5, (d.rvy - 0.5) * 0.5,
             1.0 + d.rSize * 1.5, 0.1 + d.rOpacity * 0.2, d.rLife)
  }

  /** Indicator `i` sits in slot `i + 1` of nine equal columns. */
  function InitIndicator(i: nat, d: IndicatorDraw, w: real, h: real): Indicator {
    Indicator(w / 9.0 * ((i + 1) as real),
              h * 0.3 + d.ry * h * 0.4,
              h * 0.3 + d.rBaseY * h * 0.4,
              20.0 + d.rHeight * 60.0,
              4.0,
              d.rPulse * Pi * 2.0,
              0.01 + d.rSpeed * 0.02)
  }

  lemma ScaledUnitWithin(r: real, extent: real)
    requires Unit(r) && extent >= 0.0
    ensures Within(Scale(r, extent), extent)
  {
    assert r * extent <= 1.0 * extent by {
      assert (1.0 - r) * extent >= 0.0;
    }
  }

  /** A new node lies inside the canvas. */
  lemma InitNodeInCanvas(d: NodeDraw, w: real, h: real)
    requires NodeDrawOk(d) && w >= 0.0 && h >= 0.0
    ensures Within(InitNode(d, w, h).x, w) && Within(InitNode(d, w, h).y, h)
    ensures NodeContained(InitNode(d, w, h), w, h)
  {
    ScaledUnitWithin(d.rx, w);
    ScaledUnitWithin(d.ry, h);
  }

  /** A new node moves by less than 0.15 per axis and frame, and its radius lies in [3, 5). */
  lemma InitNodeSlow(d: NodeDraw, w: real, h: real)
    requires NodeDrawOk(d)
    ensures Abs(InitNode(d, w, h).vx) <= 0.15 && Abs(InitNode(d, w, h).vy) <= 0.15
    ensures 3.0 <= InitNode(d, w, h).radius < 5.0
  {
  }

  /** The indicator slots are strictly increasing and lie strictly inside a canvas of positive width. */
  lemma IndicatorSlots(i: nat, j: nat, di: IndicatorDraw, dj: IndicatorDraw, w: real, h: real)
    requires i < j < IndicatorCount && w > 0.0
    ensures 0.0 < InitIndicator(i, di, w, h).x < InitIndicator(j, dj, w, h).x < w
  {
    var c := w / 9.0;
    var a, b := (i + 1) as real, (j + 1) as real;
    assert InitIndicator(i, di, w, h).x == c * a;
    assert InitIndicator(j, dj, w, h).x == c * b;
    PositiveScaleMonotone(c, 0.0, a);
    PositiveScaleMonotone(c, a, b);
    PositiveScaleMonotone(c, b, 9.0);
  }

  lemma PositiveScaleMonotone(c: real, a: real, b: real)
    requires c > 0.0 && a < b
    ensures c * a < c * b
  {
    assert c * b - c * a == c * (b - a);
  }

  // ------------------------------------------------------------- motion

  /** One node frame: an Euler step, a phase step, and a velocity flip on each axis that left the canvas. */
  function StepNode(n: Node, w: real, h: real): Node {
    var x := n.x + n.vx;
    var y := n.y + n.vy;
    Node(x, y,
         if x < 0.0 || x > w then -n.vx else n.vx,
         if y < 0.0 || y > h then -n.vy else n.vy,
         n.radius,
         n.pulse + 0.05)
  }

  lemma StepNodeBounces(n: Node, w: real, h: real)
    ensures var r := StepNode(n, w, h);
      && r.x == n.x + n.vx && r.y == n.y + n.vy && r.pulse == n.pulse + 0.05
      && (r.x < 0.0 || r.x > w ==> r.vx == -n.vx)
      && (Within(r.x, w) ==> r.vx == n.vx)
      && (r.y < 0.0 || r.y > h ==> r.vy == -n.vy)
      && (Within(r.y, h) ==> r.vy == n.vy)
      && Abs(r.vx) == Abs(n.vx) && Abs(r.vy) == Abs(n.vy)
      && r.radius == n.radius
  {
  }

  /**
   * The reflect policy's invariant on one axis: the coordinate is on the
   * canvas, or one more step with the current velocity brings it back.
   */
  predicate AxisContained(v: real, dv: real, extent: real) {
    Within(v, extent) || Within(v + dv, extent)
  }

  predicate NodeContained(n: Node, w: real, h: real) {
    AxisContained(n.x, n.vx, w) && AxisContained(n.y, n.vy, h)
  }

  lemma StepNodeContained(n: Node, w: real, h: real)
    requires NodeContained(n, w, h)
    ensures NodeContained(StepNode(n, w, h), w, h)
  {
  }

  /** A contained node is never more than one velocity step off the canvas. */
  lemma ContainedNearCanvas(n: Node, w: real, h: real)
    requires NodeContained(n, w, h)
    ensures -Abs(n.vx) <= n.x <= w + Abs(n.vx)
    ensures -Abs(n.vy) <= n.y <= h + Abs(n.vy)
  {
  }

  /** The node after `k` frames on a canvas of fixed size. */
  function NodeAfter(n: Node, w: real, h: real, k: nat): Node
    decreases k
  {
    if k == 0 then n else StepNode(NodeAfter(n, w, h, k - 1), w, h)
  }

  /** A node created on a canvas that is never resized stays contained on every frame. */
  lemma {:induction false} NodeStaysContained(d: NodeDraw, w: real, h: real, k: nat)
    requires NodeDrawOk(d) && w >= 0.0 && h >= 0.0
    ensures NodeContained(NodeAfter(InitNode(d, w, h), w, h, k), w, h)
    ensures -0.15 <= NodeAfter(InitNode(d, w, h), w, h, k).x <= w + 0.15
    ensures -0.15 <= NodeAfter(InitNode(d, w, h), w, h, k).y <= h + 0.15
  {
    InitNodeInCanvas(d, w, h);
    InitNodeSlow(d, w, h);
    ContainedAfter(InitNode(d, w, h), w, h, k);
    SpeedAfter(InitNode(d, w, h), w, h, k);
    ContainedNearCanvas(NodeAfter(InitNode(d, w, h), w, h, k), w, h);
  }

  lemma {:induction false} ContainedAfter(n: Node, w: real, h: real, k: nat)
    requires NodeContained(n, w, h)
    ensures NodeContained(NodeAfter(n, w, h, k), w, h)
    decreases k
  {
    if k > 0 {
      ContainedAfter(n, w, h, k - 1);
      StepNodeContained(NodeAfter(n, w, h, k - 1), w, h);
    }
  }

  /** Bouncing never changes a node's speed on either axis. */
  lemma {:induction false} SpeedAfter(n: Node, w: real, h: real, k: nat)
    ensures Abs(NodeAfter(n, w, h, k).vx) == Abs(n.vx)
    ensures Abs(NodeAfter(n, w, h, k).vy) == Abs(n.vy)
    decreases k
  {
    if k > 0 {
      SpeedAfter(n, w, h, k - 1);
      StepNodeBounces(NodeAfter(n, w, h, k - 1), w, h);
    }
  }

  /** One particle frame: an Euler step, a life step, and wrap-around to the opposite edge. */
  function StepParticle(p: Particle, w: real, h: real): Particle {
    var x0 := p.x + p.vx;
    var y0 := p.y + p.vy;
    var x1 := if x0 < 0.0 then w else x0;
    var x2 := if x1 > w then 0.0 else x1;
    var y1 := if y0 < 0.0 then h else y0;
    var y2 := if y1 > h then 0.0 else y1;
    p.(x := x2, y := y2, life := p.life + 0.005)
  }

  /** After every particle frame the particle is on the canvas, wherever it was before. */
  lemma StepParticleOnCanvas(p: Particle, w: real, h: real)
    requires w >= 0.0 && h >= 0.0
    ensures var r := StepParticle(p, w, h);
      && Within(r.x, w) && Within(r.y, h)
      && (p.x + p.vx < 0.0 ==> r.x == w)
      && (p.x + p.vx > w ==> r.x == 0.0)
      && (Within(p.x + p.vx, w) ==> r.x == p.x + p.vx)
      && (p.y + p.vy < 0.0 ==> r.y == h)
      && (p.y + p.vy > h ==> r.y == 0.0)
      && (Within(p.y + p.vy, h) ==> r.y == p.y + p.vy)
      && r.life == p.life + 0.005
      && r.vx == p.vx && r.vy == p.vy && r.size == p.size && r.opacity == p.opacity
  {
  }

  /** One indicator frame: only the phase advances, by the bar's own speed. */
  function StepIndicator(b: Indicator): Indicator {
    b.(pulse := b.pulse + b.speed)
  }

  /** The indicator after `k` frames. */
  function IndicatorAfter(b: Indicator, k: nat): Indicator {
    if k == 0 then b else StepIndicator(IndicatorAfter(b, k - 1))
  }

  /** After `k` frames a bar's phase has advanced by `k` times its speed, and nothing else about it has changed. */
  lemma {:induction false} IndicatorDrift(b: Indicator, k: nat)
    ensures IndicatorAfter(b, k).pulse == b.pulse + (k as real) * b.speed
    ensures IndicatorAfter(b, k) == b.(pulse := IndicatorAfter(b, k).pulse)
  {
    if k > 0 {
      IndicatorDrift(b, k - 1);
      assert ((k - 1) as real) * b.speed + b.speed == (k as real) * b.speed;
    }
  }

  // -------------------------------------------------------- connections

  function DistanceSquared(a: Node, b: Node): real {
    (a.x - b.x) * (a.x - b.x) + (a.y - b.y) * (a.y - b.y)
  }

  /** The source compares `Math.sqrt(dx*dx + dy*dy) < 200`; for a distance d >= 0 that is d*d < 200*200. */
  predicate Close(a: Node, b: Node) {
    DistanceSquared(a, b) < LinkDistance * LinkDistance
  }

  lemma SquaredThreshold(d: real, dsq: real)
    requires d >= 0.0 && d * d == dsq
    ensures d < LinkDistance <==> dsq < LinkDistance * LinkDistance
  {
    if d >= LinkDistance {
      assert d * d >= LinkDistance * d;
      assert LinkDistance * d >= LinkDistance * LinkDistance;
    } else {
      assert d * d <= LinkDistance * d;
      assert LinkDistance * d < LinkDistance * LinkDistance;
    }
  }

  /** The line opacity `(1 - d/200) * 0.3` for two nodes at distance d. */
  function LineAlpha(d: real): (a: real)
    ensures 0.0 <= d < LinkDistance ==> 0.0 < a <= 0.3
    ensures d >= LinkDistance ==> a <= 0.0
  {
    (1.0 - d / LinkDistance) * 0.3
  }

  lemma LineAlphaDecreasing(d1: real, d2: real)
    requires d1 < d2
    ensures LineAlpha(d2) < LineAlpha(d1)
  {
  }

  /** The lines one frame draws between nodes, as index pairs. */
  function Connections(ns: seq<Node>): seq<(nat, nat)> {
    Rows(ns, Close, |ns|)
  }

  /**
   * Every unordered pair i < j of close nodes gets a line, no other pair
   * does, and no pair gets two.
   */
  lemma ConnectionsShape(ns: seq<Node>)
    ensures forall p :: p in Connections(ns) <==> p.0 < p.1 < |ns| && Close(ns[p.0], ns[p.1])
    ensures forall a, b :: 0 <= a < b < |Connections(ns)| ==> Connections(ns)[a] != Connections(ns)[b]
  {
    RowsShape(ns, Close, |ns|);
    InLoopOrderDistinct(Connections(ns));
  }

  // ----------------------------------------------------------- resizing

  /** The ResizeObserver's clamp: from above only. */
  function ClampNode(n: Node, w: real, h: real): Node {
    n.(x := Min(n.x, w), y := Min(n.y, h))
  }

  function ClampParticle(p: Particle, w: real, h: real): Particle {
    p.(x := Min(p.x, w), y := Min(p.y, h))
  }

  function ClampIndicator(b: Indicator, w: real, h: real): Indicator {
    b.(x := Min(b.x, w), baseY := Min(b.baseY, h))
  }

  /**
   * Clamping pulls a coordinate down to the new edge, leaves one that already
   * fits alone, never raises one below 0, and doing it twice is doing it once.
   */
  lemma ClampNodeProperties(n: Node, w: real, h: real)
    ensures var c := ClampNode(n, w, h);
      && c.x <= w && c.y <= h && c.x <= n.x && c.y <= n.y
      && (n.x <= w ==> c.x == n.x) && (n.y <= h ==> c.y == n.y)
      && (n.x > w ==> c.x == w) && (n.y > h ==> c.y == h)
      && c.vx == n.vx && c.vy == n.vy && c.radius == n.radius && c.pulse == n.pulse
      && ClampNode(c, w, h) == c
  {
  }

  lemma ClampParticleProperties(p: Particle, w: real, h: real)
    ensures var c := ClampParticle(p, w, h);
      && c.x <= w && c.y <= h && (p.x <= w ==> c.x == p.x) && (p.y <= h ==> c.y == p.y)
      && c.vx == p.vx && c.vy == p.vy && c.life == p.life && c.size == p.size && c.opacity == p.opacity
  {
  }

  lemma ClampIndicatorProperties(b: Indicator, w: real, h: real)
    ensures var c := ClampIndicator(b, w, h);
      && c.x <= w && c.baseY <= h && (b.x <= w ==> c.x == b.x) && (b.baseY <= h ==> c.baseY == b.baseY)
      && c.y == b.y && c.height == b.height && c.pulse == b.pulse && c.speed == b.speed
  {
  }

  // -------------------------------------------------------------- scene

  class Scene {
    var width: nat
    var height: nat
    var time: real
    const nodes: array<Node>
    const particles: array<Particle>
    const indicators: array<Indicator>

    /** The entity counts never change. */
    ghost predicate Valid()
      reads this
    {
      nodes.Length == NodeCount && particles.Length == ParticleCount && indicators.Length == IndicatorCount
    }

    /** Every node satisfies the reflect policy's invariant on the current canvas. */
    ghost predicate NodesContained()
      reads this, nodes
    {
      forall k :: 0 <= k < nodes.Length ==> NodeContained(nodes[k], width as real, height as real)
    }

    /**
     * Mounting: `resizeCanvas` sizes the canvas from its container, then the
     * entities are created from the random draws on that canvas.
     */
    constructor (container: Option<Box>, nd: seq<NodeDraw>, pd: seq<ParticleDraw>, id: seq<IndicatorDraw>)
      requires |nd| == NodeCount && |pd| == ParticleCount && |id| == IndicatorCount
      requires forall k :: 0 <= k < |nd| ==> NodeDrawOk(nd[k])
      requires forall k :: 0 <= k < |pd| ==> ParticleDrawOk(pd[k])
      requires forall k :: 0 <= k < |id| ==> IndicatorDrawOk(id[k])
      ensures Valid() && fresh(nodes) && fresh(particles) && fresh(indicators)
      ensures container.Some? ==> width == container.value.clientWidth && height == CanvasHeight(container.value.clientHeight)
      ensures container.None? ==> width == DefaultCanvasWidth && height == DefaultCanvasHeight
      ensures height > 0 && time == 0.0
      ensures forall k :: 0 <= k < NodeCount ==> nodes[k] == InitNode(nd[k], width as real, height as real)
      ensures forall k :: 0 <= k < ParticleCount ==> particles[k] == InitParticle(pd[k], width as real, height as real)
      ensures forall k :: 0 <= k < IndicatorCount ==> indicators[k] == InitIndicator(k, id[k], width as real, height as real)
      ensures NodesContained()
    {
      var w, h := DefaultCanvasWidth, DefaultCanvasHeight;
      if container.Some? {
        w, h := container.value.clientWidth, CanvasHeight(container.value.clientHeight);
      }
      width, height, time := w, h, 0.0;
      nodes := new Node[NodeCount](k requires 0 <= k < NodeCount => InitNode(nd[k], w as real, h as real));
      particles := new Particle[ParticleCount](k requires 0 <= k < ParticleCount => InitParticle(pd[k], w as real, h as real));
      indicators := new Indicator[IndicatorCount](k requires 0 <= k < IndicatorCount => InitIndicator(k, id[k], w as real, h as real));
      new;
      forall k | 0 <= k < NodeCount
        ensures NodeContained(nodes[k], width as real, height as real)
      {
        InitNodeInCanvas(nd[k], width as real, height as real);
      }
    }

    /**
     * One animation frame: the clock advances by 0.01, the lines between close
     * nodes are computed on the positions before the move, then every node,
     * particle and indicator takes its step.
     */
    method Frame() returns (lines: seq<(nat, nat)>)
      requires Valid()
      modifies this`time, nodes, particles, indicators
      ensures Valid() && time == old(time) + 0.01
      ensures lines == Connections(old(nodes[..]))
      ensures forall k :: 0 <= k < nodes.Length ==> nodes[k] == StepNode(old(nodes[k]), width as real, height as real)
      ensures forall k :: 0 <= k < particles.Length ==> particles[k] == StepParticle(old(particles[k]), width as real, height as real)
      ensures forall k :: 0 <= k < indicators.Length ==> indicators[k] == StepIndicator(old(indicators[k]))
      ensures old(NodesContained()) ==> NodesContained()
    {
      time := time + 0.01;
      lines := ScanPairs(nodes[..], Close);
      var w, h := width as real, height as real;
      for k := 0 to nodes.Length
        modifies nodes
        invariant forall m :: 0 <= m < k ==> nodes[m] == StepNode(old(nodes[m]), w, h)
        invariant forall m :: k <= m < nodes.Length ==> nodes[m] == old(nodes[m])
      {
        nodes[k] := StepNode(nodes[k], w, h);
      }
      for k := 0 to particles.Length
        modifies particles
        invariant forall m :: 0 <= m < k ==> particles[m] == StepParticle(old(particles[m]), w, h)
        invariant forall m :: k <= m < particles.Length ==> particles[m] == old(particles[m])
      {
        particles[k] := StepParticle(particles[k], w, h);
      }
      for k := 0 to indicators.Length
        modifies indicators
        invariant forall m :: 0 <= m < k ==> indicators[m] == StepIndicator(old(indicators[m]))
        invariant forall m :: k <= m < indicators.Length ==> indicators[m] == old(indicators[m])
      {
        indicators[k] := StepIndicator(indicators[k]);
      }
      if old(NodesContained()) {
        forall k | 0 <= k < nodes.Length
          ensures NodeContained(nodes[k], w, h)
        {
          StepNodeContained(old(nodes[k]), w, h);
        }
      }
    }

    /** `resizeCanvas`: takes the container's size when there is a container. */
    method WindowResize(container: Option<Box>)
      modifies this`width, this`height
      ensures container.Some? ==> width == container.value.clientWidth && height == CanvasHeight(container.value.clientHeight)
      ensures container.None? ==> width == old(width) && height == old(height)
    {
      if container.Some? {
        width := container.value.clientWidth;
        height := CanvasHeight(container.value.clientHeight);
      }
    }

    /** The ResizeObserver callback: resize, then clamp every entity from above to the new extent. */
    method ObserveResize(container: Option<Box>)
      requires Valid()
      modifies this`width, this`height, nodes, particles, indicators
      ensures Valid() && time == old(time)
      ensures container.Some? ==> width == container.value.clientWidth && height == CanvasHeight(container.value.clientHeight)
      ensures container.None? ==> width == old(width) && height == old(height)
      ensures forall k :: 0 <= k < nodes.Length ==> nodes[k] == ClampNode(old(nodes[k]), width as real, height as real)
      ensures forall k :: 0 <= k < particles.Length ==> particles[k] == ClampParticle(old(particles[k]), width as real, height as real)
      ensures forall k :: 0 <= k < indicators.Length ==> indicators[k] == ClampIndicator(old(indicators[k]), width as real, height as real)
    {
      WindowResize(container);
      var w, h := width as real, height as real;
      for k := 0 to nodes.Length
        modifies nodes
        invariant forall m :: 0 <= m < k ==> nodes[m] == ClampNode(old(nodes[m]), w, h)
        invariant forall m :: k <= m < nodes.Length ==> nodes[m] == old(nodes[m])
      {
        nodes[k] := ClampNode(nodes[k], w, h);
      }
      for k := 0 to particles.Length
        modifies particles
        invariant forall m :: 0 <= m < k ==> particles[m] == ClampParticle(old(particles[m]), w, h)
        invariant forall m :: k <= m < particles.Length ==> particles[m] == old(particles[m])
      {
        particles[k] := ClampParticle(particles[k], w, h);
      }
      for k := 0 to indicators.Length
        modifies indicators
        invariant forall m :: 0 <= m < k ==> indicators[m] == ClampIndicator(old(indicators[m]), w, h)
        invariant forall m :: k <= m < indicators.Length ==> indicators[m] == old(indicators[m])
      {
        indicators[k] := ClampIndicator(indicators[k], w, h);
      }
    }
  }

  /** Shrinking an 800x500 canvas to 400x300 moves a node at (750, 50) to (400, 50). */
  lemma ShrinkExample(n: Node)
    requires n.x == 750.0 && n.y == 50.0
    ensures ClampNode(n, 400.0, 300.0).x == 400.0 && ClampNode(n, 400.0, 300.0).y == 50.0
  {
  }
}
