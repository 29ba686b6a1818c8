/**
 * The server side gesture controller: the distance and velocity helpers and
 * the touch handler that turns a soloist's touch events into `update_synth`
 * messages for the playing clients and for the room.
 *
 * Numbers are `real`. `Math.sqrt` is a library call the model cannot see: it
 * is given to the model as a function value `sqrt` known only by its defining
 * property `IsRoot` (non-negative, and its square is its argument).
 */
module ServerPerformance {

  import opened Common

  /** A position in the area, the `[x, y]` array a client sends. */
  datatype Point = Point(x: real, y: real)

  /** One entry of a client's input history: `{position, timeStamp}`. */
  datatype Sample = Sample(position: Point, timeStamp: real)

  /** The three socket events the handler dispatches on. */
  datatype TouchType = TouchStart | TouchMove | TouchEnd

  type SocketId = nat

  /** A playing client: its socket and its last known position. */
  datatype Player = Player(socket: SocketId, position: Point)

  /** A client record: its public soloist id and its private input history,
      `None` while no touch start has set it. */
  datatype Client = Client(soloistId: int, inputArray: Option<seq<Sample>>)

  /** An emitted `update_synth` message, by the channel it goes to. */
  datatype Message =
    | Unicast(socket: SocketId, soloistId: int, distance: real, intensity: real)
    | Performance(soloistId: int, distance: real, intensity: real)
    | Room(soloistId: int, position: Point, distance: real, intensity: real)

  /** How a call of the handler ended: ignored by the soloist guard, handled,
      or stopped by a TypeError (a move with no earlier sample to compare to). */
  datatype Outcome = Ignored | Handled | Threw

  /** The defining property of a square root on the non-negative reals. */
  ghost predicate IsRoot(sqrt: real -> real)
  {
    forall x: real {:trigger sqrt(x)} :: 0.0 <= x ==> 0.0 <= sqrt(x) && Sq(sqrt(x)) == x
  }

  /** The square root (`Math.sqrt`) and the area's height and width. */
  datatype Geometry = Geometry(sqrt: real -> real, height: real, width: real)
  {
    ghost predicate Valid()
    {
      IsRoot(sqrt) && height != 0.0 && width != 0.0
    }
  }

  function Sq(x: real): (r: real)
    ensures 0.0 <= r
  {
    x * x
  }

  lemma ProductPositive(a: real, c: real)
    requires 0.0 < a && 0.0 < c
    ensures 0.0 < a * c
  {
  }

  /** Squaring is strictly increasing on the non-negative reals. */
  lemma SquareStrictlyIncreasing(a: real, b: real)
    requires 0.0 <= a < b
    ensures Sq(a) < Sq(b)
  {
    var d, e := b - a, b + a;
    ProductPositive(d, e);
    calc {
      Sq(b) - Sq(a);
      == b * b - a * a;
      == d * e;
    }
  }

  lemma RootOfZero(sqrt: real -> real)
    requires IsRoot(sqrt)
    ensures sqrt(0.0) == 0.0
  {
    var r := sqrt(0.0);
    if 0.0 < r {
      SquareStrictlyIncreasing(0.0, r);
    }
  }

  /** A root is monotone. */
  lemma RootMonotone(sqrt: real -> real, x: real, y: real)
    requires IsRoot(sqrt) && 0.0 <= x <= y
    ensures sqrt(x) <= sqrt(y)
  {
    var a, b := sqrt(x), sqrt(y);
    if b < a {
      SquareStrictlyIncreasing(b, a);
    }
  }

  /** The root of a square of a non-negative number is that number. */
  lemma RootOfSquare(sqrt: real -> real, r: real)
    requires IsRoot(sqrt) && 0.0 <= r
    ensures sqrt(Sq(r)) == r
  {
    var s := sqrt(Sq(r));
    if s < r {
      SquareStrictlyIncreasing(s, r);
    } else if r < s {
      SquareStrictlyIncreasing(r, s);
    }
  }

  /** The square of the normalised distance for the differences `dx`, `dy`:
      the difference along the shorter side is rescaled by the aspect ratio. */
  function NormalizedSquare(dx: real, dy: real, h: real, w: real): (r: real)
    requires h != 0.0 && w != 0.0
    ensures 0.0 <= r
  {
    if w / h < 1.0 then Sq(dx * w / h) + Sq(dy) else Sq(dx) + Sq(dy * h / w)
  }

  /** `calculateNormalizedDistance`: the root of `NormalizedSquare`. */
  function NormalizedDistance(sqrt: real -> real, a: Point, b: Point, h: real, w: real): (r: real)
    requires IsRoot(sqrt) && h != 0.0 && w != 0.0
    ensures 0.0 <= r
    ensures Sq(r) == NormalizedSquare(a.x - b.x, a.y - b.y, h, w)
  {
    sqrt(NormalizedSquare(a.x - b.x, a.y - b.y, h, w))
  }

  /** The plain Euclidean distance, for reference. */
  function EuclideanDistance(sqrt: real -> real, a: Point, b: Point): (r: real)
    requires IsRoot(sqrt)
    ensures 0.0 <= r
    ensures Sq(r) == Sq(a.x - b.x) + Sq(a.y - b.y)
  {
    sqrt(Sq(a.x - b.x) + Sq(a.y - b.y))
  }

  lemma SqNeg(x: real)
    ensures Sq(-x) == Sq(x)
  {
  }

  /** Scaling a difference by `p / q` commutes with negating it. */
  lemma ScaledNeg(x: real, p: real, q: real)
    requires q != 0.0
    ensures (-x) * p / q == -(x * p / q)
  {
  }

  lemma NormalizedSquareNeg(dx: real, dy: real, h: real, w: real)
    requires h != 0.0 && w != 0.0
    ensures NormalizedSquare(-dx, -dy, h, w) == NormalizedSquare(dx, dy, h, w)
  {
    SqNeg(dx);
    SqNeg(dy);
    if w / h < 1.0 {
      ScaledNeg(dx, w, h);
      SqNeg(dx * w / h);
    } else {
      ScaledNeg(dy, h, w);
      SqNeg(dy * h / w);
    }
  }

  lemma NormalizedDistanceSymmetric(sqrt: real -> real, a: Point, b: Point, h: real, w: real)
    requires IsRoot(sqrt) && h != 0.0 && w != 0.0
    ensures NormalizedDistance(sqrt, a, b, h, w) == NormalizedDistance(sqrt, b, a, h, w)
  {
    NormalizedSquareNeg(a.x - b.x, a.y - b.y, h, w);
    assert b.x - a.x == -(a.x - b.x) && b.y - a.y == -(a.y - b.y);
  }

  lemma NormalizedDistanceSelf(sqrt: real -> real, a: Point, h: real, w: real)
    requires IsRoot(sqrt) && h != 0.0 && w != 0.0
    ensures NormalizedDistance(sqrt, a, a, h, w) == 0.0
  {
    RootOfZero(sqrt);
  }

  lemma DivideOut(x: real, q: real)
    requires q != 0.0
    ensures x * q / q == x
  {
  }

  lemma DivideSelf(q: real)
    requires q != 0.0
    ensures q / q == 1.0
  {
  }

  /** On a square area the normalised distance is the Euclidean distance. */
  lemma NormalizedDistanceSquareArea(sqrt: real -> real, a: Point, b: Point, side: real)
    requires IsRoot(sqrt) && side != 0.0
    ensures NormalizedDistance(sqrt, a, b, side, side) == EuclideanDistance(sqrt, a, b)
  {
    var dx, dy := a.x - b.x, a.y - b.y;
    DivideSelf(side);
    DivideOut(dy, side);
    assert NormalizedSquare(dx, dy, side, side) == Sq(dx) + Sq(dy);
  }

  /** `calculateVelocity`: distance travelled over elapsed time. */
  function Velocity(sqrt: real -> real, a: Sample, b: Sample, h: real, w: real): (r: real)
    requires IsRoot(sqrt) && h != 0.0 && w != 0.0 && a.timeStamp != b.timeStamp
    ensures 0.0 <= r
    ensures r * Abs(a.timeStamp - b.timeStamp) == NormalizedDistance(sqrt, a.position, b.position, h, w)
  {
    NormalizedDistance(sqrt, a.position, b.position, h, w) / Abs(a.timeStamp - b.timeStamp)
  }

  lemma DoubleDivisorHalves(d: real, t: real, t2: real)
    requires 0.0 < t && t2 == 2.0 * t
    ensures (d / t2) * 2.0 == d / t
  {
  }

  /** Doubling the elapsed time between the same two positions halves the velocity. */
  lemma VelocityHalvesWhenTimeDoubles(sqrt: real -> real, a: Sample, b: Sample, b': Sample, h: real, w: real)
    requires IsRoot(sqrt) && h != 0.0 && w != 0.0 && a.timeStamp != b.timeStamp
    requires b'.position == b.position
    requires Abs(a.timeStamp - b'.timeStamp) == 2.0 * Abs(a.timeStamp - b.timeStamp)
    ensures Velocity(sqrt, a, b', h, w) * 2.0 == Velocity(sqrt, a, b, h, w)
  {
    var d := NormalizedDistance(sqrt, a.position, b.position, h, w);
    var t, t2 := Abs(a.timeStamp - b.timeStamp), Abs(a.timeStamp - b'.timeStamp);
    assert Velocity(sqrt, a, b, h, w) == d / t;
    assert Velocity(sqrt, a, b', h, w) == d / t2;
    DoubleDivisorHalves(d, t, t2);
  }

  /** `scaleDistance`: `min(d / m, 1)`. */
  function ScaleDistance(d: real, m: real): (r: real)
    requires m != 0.0
    ensures r <= 1.0 && r <= d / m
    ensures 0.0 <= d && 0.0 < m ==> 0.0 <= r
    ensures r < 1.0 ==> r * m == d
  {
    if d / m < 1.0 then d / m else 1.0
  }

  lemma ScaleDistanceMonotone(d1: real, d2: real, m: real)
    requires 0.0 < m && d1 <= d2
    ensures ScaleDistance(d1, m) <= ScaleDistance(d2, m)
  {
    assert d1 / m <= d2 / m;
  }

  /** The intensity of a move: `min(1, velocity / 2)`. */
  function Intensity(velocity: real): (r: real)
    ensures r <= 1.0 && r <= velocity / 2.0
    ensures 0.0 <= velocity ==> 0.0 <= r
    ensures r < 1.0 ==> r * 2.0 == velocity
  {
    if 1.0 < velocity / 2.0 then 1.0 else velocity / 2.0
  }

  /** The scaled distance between a playing client at `position` and the finger. */
  function PlayerDistance(g: Geometry, radius: real, position: Point, finger: Point): (r: real)
    requires g.Valid() && 0.0 < radius
    ensures 0.0 <= r <= 1.0
  {
    ScaleDistance(NormalizedDistance(g.sqrt, position, finger, g.height, g.width), radius)
  }

  /** The unicasts of one handled start or move: one per playing client, in list order. */
  function Fanout(g: Geometry, radius: real, players: seq<Player>, finger: Point, soloistId: int, intensity: real): (r: seq<Message>)
    requires g.Valid() && 0.0 < radius
    ensures |r| == |players|
    ensures forall i :: 0 <= i < |players| ==>
      r[i] == Unicast(players[i].socket, soloistId, PlayerDistance(g, radius, players[i].position, finger), intensity)
  {
    if players == [] then []
    else
      var last := players[|players| - 1];
      Fanout(g, radius, players[..|players| - 1], finger, soloistId, intensity)
        + [Unicast(last.socket, soloistId, PlayerDistance(g, radius, last.position, finger), intensity)]
  }

  /** `dSub`, the subwoofer distance: starts at 1 and is lowered to every smaller scaled distance. */
  function SubDistance(g: Geometry, radius: real, players: seq<Player>, finger: Point): (r: real)
    requires g.Valid() && 0.0 < radius
    ensures 0.0 <= r <= 1.0
    ensures forall i :: 0 <= i < |players| ==> r <= PlayerDistance(g, radius, players[i].position, finger)
    ensures r == 1.0 || exists i :: 0 <= i < |players| && r == PlayerDistance(g, radius, players[i].position, finger)
  {
    if players == [] then 1.0
    else
      var n := |players| - 1;
      var d := PlayerDistance(g, radius, players[n].position, finger);
      var m := SubDistance(g, radius, players[..n], finger);
      assert forall i :: 0 <= i < n ==> players[..n][i] == players[i];
      if m > d then d else m
  }

  /** The intensity of a move whose history ends with the two samples compared. */
  function MoveIntensity(g: Geometry, history: seq<Sample>): (r: real)
    requires g.Valid() && 2 <= |history|
    requires history[|history| - 1].timeStamp != history[|history| - 2].timeStamp
    ensures 0.0 <= r <= 1.0
  {
    Intensity(Velocity(g.sqrt, history[|history| - 1], history[|history| - 2], g.height, g.width))
  }

  /** The end-to-end example of a touch start: on a unit square, a finger at
      (0.5, 0) is 0.5 away from a client at (1, 0), which scales to 1. */
  lemma StartExample(g: Geometry)
    requires g.Valid() && g.height == 1.0 && g.width == 1.0
    ensures PlayerDistance(g, 0.3, Point(1.0, 0.0), Point(0.5, 0.0)) == 1.0
  {
    assert NormalizedSquare(0.5, 0.0, 1.0, 1.0) == Sq(0.5);
    RootOfSquare(g.sqrt, 0.5);
  }

  /** The distance of the move example: (0, 1) is 1 away from (0, 0) on a unit square. */
  lemma MoveExampleDistance(g: Geometry)
    requires g.Valid() && g.height == 1.0 && g.width == 1.0
    ensures NormalizedDistance(g.sqrt, Point(0.0, 1.0), Point(0.0, 0.0), 1.0, 1.0) == 1.0
  {
    assert NormalizedSquare(0.0, 1.0, 1.0, 1.0) == Sq(1.0);
    RootOfSquare(g.sqrt, 1.0);
  }

  /** The velocity is the distance over the elapsed time, once both are known. */
  lemma VelocityFrom(sqrt: real -> real, a: Sample, b: Sample, h: real, w: real, d: real, t: real, v: real)
    requires IsRoot(sqrt) && h != 0.0 && w != 0.0 && a.timeStamp != b.timeStamp
    requires NormalizedDistance(sqrt, a.position, b.position, h, w) == d
    requires Abs(a.timeStamp - b.timeStamp) == t && v * t == d
    ensures Velocity(sqrt, a, b, h, w) == v
  {
  }

  /** The velocity of the move example: distance 1 over 2 time units. */
  lemma MoveExampleVelocity(g: Geometry)
    requires g.Valid() && g.height == 1.0 && g.width == 1.0
    ensures Velocity(g.sqrt, Sample(Point(0.0, 1.0), 2.0), Sample(Point(0.0, 0.0), 0.0), 1.0, 1.0) == 0.5
  {
    var a, b := Sample(Point(0.0, 1.0), 2.0), Sample(Point(0.0, 0.0), 0.0);
    MoveExampleDistance(g);
    assert NormalizedDistance(g.sqrt, a.position, b.position, 1.0, 1.0) == 1.0;
    assert Abs(a.timeStamp - b.timeStamp) == 2.0;
    assert 0.5 * 2.0 == 1.0;
    VelocityFrom(g.sqrt, a, b, 1.0, 1.0, 1.0, 2.0, 0.5);
  }

  /** The end-to-end example of a move: from (0, 0) at time 0 to (0, 1) at
      time 2 on a unit square is a velocity of 1/2 and an intensity of 1/4. */
  lemma MoveExample(g: Geometry)
    requires g.Valid() && g.height == 1.0 && g.width == 1.0
    ensures Velocity(g.sqrt, Sample(Point(0.0, 1.0), 2.0), Sample(Point(0.0, 0.0), 0.0), 1.0, 1.0) == 0.5
    ensures MoveIntensity(g, [Sample(Point(0.0, 0.0), 0.0), Sample(Point(0.0, 1.0), 2.0)]) == 0.25
  {
    var history := [Sample(Point(0.0, 0.0), 0.0), Sample(Point(0.0, 1.0), 2.0)];
    MoveExampleVelocity(g);
    assert MoveIntensity(g, history) == Intensity(0.5);
  }

  /** `ServerPerform`: the performance manager's handler state. The soloist
      list, the playing list and the client records belong to the session
      registry; the handler reads them and writes the client histories.
      Emitted messages are appended to `log`. */
  class ServerPerform {
    const geometry: Geometry
    const fingerRadius: real
    var soloists: seq<SocketId>
    var playing: seq<Player>
    var clients: map<SocketId, Client>
    var log: seq<Message>

    /** Every soloist has a client record. */
    ghost predicate Valid()
      reads this
    {
      geometry.Valid() && fingerRadius == 0.3 &&
      forall s :: s in soloists ==> s in clients
    }

    constructor (geometry: Geometry, soloists: seq<SocketId>, playing: seq<Player>, clients: map<SocketId, Client>)
      requires geometry.Valid()
      requires forall s :: s in soloists ==> s in clients
      ensures Valid()
      ensures this.geometry == geometry && fingerRadius == 0.3
      ensures this.soloists == soloists && this.playing == playing && this.clients == clients
      ensures log == []
    {
      this.geometry := geometry;
      fingerRadius := 0.3;
      this.soloists := soloists;
      this.playing := playing;
      this.clients := clients;
      log := [];
    }

    /** Sends every playing client its scaled distance to the finger and
        returns the smallest of 1 and those distances. */
    method SendToPlaying(soloistId: int, finger: Point, intensity: real) returns (dSub: real)
      requires Valid()
      modifies this`log
      ensures log == old(log) + Fanout(geometry, fingerRadius, playing, finger, soloistId, intensity)
      ensures dSub == SubDistance(geometry, fingerRadius, playing, finger)
    {
      dSub := 1.0;
      var i := 0;
      while i < |playing|
        invariant 0 <= i <= |playing|
        invariant log == old(log) + Fanout(geometry, fingerRadius, playing[..i], finger, soloistId, intensity)
        invariant dSub == SubDistance(geometry, fingerRadius, playing[..i], finger)
      {
        var d := ScaleDistance(NormalizedDistance(geometry.sqrt, playing[i].position, finger, geometry.height, geometry.width), fingerRadius);
        log := log + [Unicast(playing[i].socket, soloistId, d, intensity)];
        if dSub > d {
          dSub := d;
        }
        assert playing[..i + 1][..i] == playing[..i];
        i := i + 1;
      }
      assert playing[..i] == playing;
    }

    /** `touchHandler`: ignores sockets that are no longer soloists, then
        dispatches on the event type. */
    method TouchHandler(kind: TouchType, finger: Point, timeStamp: real, socket: SocketId) returns (outcome: Outcome)
      requires Valid()
      requires kind == TouchMove && socket in soloists && clients[socket].inputArray.Some? ==>
        var h := clients[socket].inputArray.value;
        h != [] ==> h[|h| - 1].timeStamp != timeStamp
      modifies this`clients, this`log
      ensures Valid()
      ensures socket !in soloists ==> outcome == Ignored && clients == old(clients) && log == old(log)
      ensures socket in soloists && kind == TouchEnd ==>
        var id := old(clients)[socket].soloistId;
        && outcome == Handled
        && clients == old(clients)
        && log == old(log) + [Performance(id, 1.0, 0.0), Room(id, finger, 1.0, 0.0)]
      ensures socket in soloists && kind == TouchStart ==>
        var c := old(clients)[socket];
        && outcome == Handled
        && clients == old(clients)[socket := c.(inputArray := Some([Sample(finger, timeStamp)]))]
        && log == old(log) + Fanout(geometry, fingerRadius, playing, finger, c.soloistId, 0.0)
                + [Room(c.soloistId, finger, SubDistance(geometry, fingerRadius, playing, finger), 0.0)]
      ensures socket in soloists && kind == TouchMove ==>
        var c := old(clients)[socket];
        && (c.inputArray.None? ==> outcome == Threw && clients == old(clients) && log == old(log))
        && (c.inputArray.Some? ==>
              var history := c.inputArray.value + [Sample(finger, timeStamp)];
              clients == old(clients)[socket := c.(inputArray := Some(history))])
        && (c.inputArray == Some([]) ==> outcome == Threw && log == old(log))
        && (c.inputArray.Some? && c.inputArray.value != [] ==>
              var history := c.inputArray.value + [Sample(finger, timeStamp)];
              var s := MoveIntensity(geometry, history);
              && outcome == Handled
              && log == old(log) + Fanout(geometry, fingerRadius, playing, finger, c.soloistId, s)
                      + [Room(c.soloistId, finger, SubDistance(geometry, fingerRadius, playing, finger), s)])
    {
      if socket !in soloists {
        return Ignored;
      }
      var client := clients[socket];
      var soloistId := client.soloistId;
      var s := 0.0;
      match kind
      case TouchEnd =>
        log := log + [Performance(soloistId, 1.0, s)];
        log := log + [Room(soloistId, finger, 1.0, s)];
        outcome := Handled;
      case TouchMove =>
        if client.inputArray.None? {
          // Pushing onto an undefined history throws before anything is stored.
          return Threw;
        }
        var history := client.inputArray.value + [Sample(finger, timeStamp)];
        clients := clients[socket := client.(inputArray := Some(history))];
        if |history| < 2 {
          // `inputArray[length - 2]` is undefined and reading its position throws.
          return Threw;
        }
        s := Velocity(geometry.sqrt, history[|history| - 1], history[|history| - 2], geometry.height, geometry.width);
        s := Intensity(s);
        var dSub := SendToPlaying(soloistId, finger, s);
        log := log + [Room(soloistId, finger, dSub, s)];
        outcome := Handled;
      case TouchStart =>
        clients := clients[socket := client.(inputArray := Some([Sample(finger, timeStamp)]))];
        var dSub := SendToPlaying(soloistId, finger, 0.0);
        log := log + [Room(soloistId, finger, dSub, s)];
        outcome := Handled;
    }
  }
}
