/** One tick of missile flight, as a function on values: which missiles
    move, which of them arrive, and which cities they hit. The floating-point
    trajectory (direction, speed scaling, altitude profile) is a parameter;
    the arrival test and the bookkeeping around it are modelled exactly. */
module Movement {
  import opened World

  /** The trajectory arithmetic of one tick, left abstract: the next position
      from the current position, the target and the speed in Mach, and the
      display altitude from the current position and the target. */
  datatype Kinematics = Kinematics(
    step: (GpsCoordinates, GpsCoordinates, real) -> GpsCoordinates,
    altitude: (GpsCoordinates, GpsCoordinates) -> int)

  /** Arrival tolerances, in degrees: a box, not a radius. */
  const LatitudeTolerance: real := 0.05
  const LongitudeTolerance: real := 0.2

  function Abs(x: real): real {
    if x < 0.0 then -x else x
  }

  /** Whether a missile at `position` counts as having reached `target`. */
  predicate Arrived(position: GpsCoordinates, target: GpsCoordinates) {
    && Abs(position.latitude - target.latitude) < LatitudeTolerance
    && Abs(position.longitude - target.longitude) < LongitudeTolerance
  }

  /** Whether flight `f` strikes its target during this tick. */
  predicate Strikes(f: Flight, k: Kinematics) {
    var target := f.destination.coordinates;
    f.active && Arrived(k.step(f.position, target, f.speedMach), target)
  }

  /** One missile, one tick: an inactive missile is skipped; an active one
      moves, gets a new altitude, and is switched off if it arrived. */
  function Step(f: Flight, k: Kinematics): (g: Flight)
    ensures g.destination == f.destination && g.speedMach == f.speedMach
    ensures !f.active ==> g == f
    ensures g.active <==> f.active && !Strikes(f, k)
  {
    if !f.active then f
    else
      var target := f.destination.coordinates;
      var position := k.step(f.position, target, f.speedMach);
      Flight(f.destination, f.speedMach, position, k.altitude(f.position, target),
             !Arrived(position, target))
  }

  /** Every missile, one tick. */
  function StepAll(fs: seq<Flight>, k: Kinematics): (gs: seq<Flight>)
    ensures |gs| == |fs|
    ensures forall i :: 0 <= i < |fs| ==> gs[i].destination == fs[i].destination
    ensures forall i :: 0 <= i < |fs| && gs[i].active ==> fs[i].active
    ensures forall i :: 0 <= i < |fs| && !fs[i].active ==> gs[i] == fs[i]
  {
    seq(|fs|, i requires 0 <= i < |fs| => Step(fs[i], k))
  }

  /** The destinations of the missiles that strike in this tick, in the
      order of the missile list. */
  function Hits(fs: seq<Flight>, k: Kinematics): (hits: seq<City>)
    ensures |hits| <= |fs|
  {
    if fs == [] then []
    else
      var last := fs[|fs| - 1];
      Hits(fs[..|fs| - 1], k) + (if Strikes(last, k) then [last.destination] else [])
  }

  /** Extending the list by one flight extends its hits by that flight's. */
  lemma HitsPrefix(fs: seq<Flight>, k: Kinematics, i: nat)
    requires i < |fs|
    ensures Hits(fs[..i + 1], k)
         == Hits(fs[..i], k) + (if Strikes(fs[i], k) then [fs[i].destination] else [])
  {
    assert fs[..i + 1][..i] == fs[..i];
  }

  /** Reference definition: the destinations of the flights that are active
      in `before` and inactive in `after`, in order. */
  function Deactivated(before: seq<Flight>, after: seq<Flight>): seq<City>
    requires |before| == |after|
  {
    if before == [] then []
    else
      (if before[0].active && !after[0].active then [before[0].destination] else [])
      + Deactivated(before[1..], after[1..])
  }

  /** The number of active flights. */
  function CountActive(fs: seq<Flight>): nat {
    if fs == [] then 0
    else CountActive(fs[..|fs| - 1]) + (if fs[|fs| - 1].active then 1 else 0)
  }

  /** `n` consecutive ticks. */
  function Run(fs: seq<Flight>, k: Kinematics, n: nat): (gs: seq<Flight>)
    ensures |gs| == |fs|
  {
    if n == 0 then fs else StepAll(Run(fs, k, n - 1), k)
  }

  lemma {:induction false} DeactivatedSnoc(before: seq<Flight>, after: seq<Flight>, x: Flight, y: Flight)
    requires |before| == |after|
    ensures Deactivated(before + [x], after + [y])
         == Deactivated(before, after) + (if x.active && !y.active then [x.destination] else [])
  {
    if before != [] {
      assert (before + [x])[1..] == before[1..] + [x];
      assert (after + [y])[1..] == after[1..] + [y];
      DeactivatedSnoc(before[1..], after[1..], x, y);
    }
  }

  /** The hit list is exactly the destinations of the missiles that this
      tick switched off, in list order. */
  lemma {:induction false} HitsAreDeactivated(fs: seq<Flight>, k: Kinematics)
    ensures Hits(fs, k) == Deactivated(fs, StepAll(fs, k))
  {
    if fs != [] {
      var n := |fs| - 1;
      var prefix := fs[..n];
      assert fs == prefix + [fs[n]];
      assert StepAll(fs, k) == StepAll(prefix, k) + [Step(fs[n], k)];
      HitsAreDeactivated(prefix, k);
      DeactivatedSnoc(prefix, StepAll(prefix, k), fs[n], Step(fs[n], k));
    }
  }

  /** Every hit switches exactly one missile off: the number of active
      missiles drops by the length of the hit list. */
  lemma {:induction false} HitsCount(fs: seq<Flight>, k: Kinematics)
    ensures |Hits(fs, k)| + CountActive(StepAll(fs, k)) == CountActive(fs)
  {
    if fs != [] {
      var n := |fs| - 1;
      var prefix := fs[..n];
      var gs := StepAll(fs, k);
      assert gs[..n] == StepAll(prefix, k);
      HitsCount(prefix, k);
    }
  }

  /** A missile that is inactive stays exactly as it is, however many
      ticks follow. */
  lemma {:induction false} InactiveStaysPut(fs: seq<Flight>, k: Kinematics, n: nat, i: nat)
    requires i < |fs| && !fs[i].active
    ensures Run(fs, k, n)[i] == fs[i]
  {
    if n > 0 {
      InactiveStaysPut(fs, k, n - 1, i);
    }
  }

  /** A missile strikes in at most one tick: once it has struck in tick `m`,
      it is inactive and never strikes again in any later tick `n`. */
  lemma {:induction false} StrikesAtMostOnce(fs: seq<Flight>, k: Kinematics, i: nat, m: nat, n: nat)
    requires i < |fs| && m < n
    requires Strikes(Run(fs, k, m)[i], k)
    ensures !Run(fs, k, n)[i].active
    ensures !Strikes(Run(fs, k, n)[i], k)
  {
    if n > m + 1 {
      StrikesAtMostOnce(fs, k, i, m, n - 1);
    }
  }
}
