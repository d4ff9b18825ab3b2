/** The game server's state and the operations that change it in place:
    launching a missile, one tick of the game loop (moving missiles, then
    lowering the population of the cities they hit), and keeping the list
    of subscribed players. */
module Game {
  import opened World
  import opened Movement
  import opened Casualties
  import opened Registry

  /** Why a launch was refused: the silo at `site` has no missiles left. */
  datatype LaunchError = EmptySilo(site: GpsCoordinates)

  /** The Go `error` result of a launch: nil, or an error. */
  datatype Outcome = Pass | Fail(error: LaunchError)

  /** No city object is reachable under two different (country, city) keys,
      so that updating one city entry never updates another. */
  ghost predicate DistinctCities(countries: map<string, Country>) {
    forall k1, n1, k2, n2 ::
      k1 in countries && n1 in countries[k1].cities &&
      k2 in countries && n2 in countries[k2].cities &&
      (k1 != k2 || n1 != n2)
      ==> countries[k1].cities[n1] != countries[k2].cities[n2]
  }

  /** No missile object appears twice in the list. */
  ghost predicate DistinctMissiles(missiles: seq<Missile>) {
    forall i, j :: 0 <= i < j < |missiles| ==> missiles[i] != missiles[j]
  }

  /** Every population lies between 0 and its starting value. */
  ghost predicate PopulationsInRange(cities: set<City>)
    reads cities
  {
    forall c :: c in cities ==> 0 <= c.population <= c.startingPopulation
  }

  /** No battery holds a negative number of missiles. */
  ghost predicate CountsNonNegative(batteries: set<MissileBattery>)
    reads batteries
  {
    forall b :: b in batteries ==> b.missileCount >= 0
  }

  /** The names of the cities hit, in order: cities are matched by name. */
  function Names(hits: seq<City>): (names: seq<string>) {
    seq(|hits|, i requires 0 <= i < |hits| => hits[i].name)
  }

  /** The casualty draws that fall on city `c`, by hit index. */
  function DrawsFor(draw: (City, nat) -> Draw, c: City): nat -> Draw {
    k => draw(c, k)
  }

  function IdOf(p: Player): Uuid {
    p.id
  }

  /** One active missile, one tick: it moves a step towards its target, takes
      its new altitude, and is switched off if it arrived. */
  method MoveMissile(missile: Missile, k: Kinematics) returns (arrived: bool)
    requires missile.active
    modifies missile
    ensures missile.View() == Step(old(missile.View()), k)
    ensures arrived == Strikes(old(missile.View()), k)
  {
    var target := missile.destination.coordinates;
    var position := k.step(missile.positionInFlight, target, missile.speedMach);
    missile.altitudeMeters := k.altitude(missile.positionInFlight, target);
    missile.positionInFlight := position;
    arrived := Arrived(missile.positionInFlight, target);
    if arrived {
      missile.active := false;
    }
  }

  /** City `c`, whose population was `before`, is either untouched or has
      taken all of its hits. */
  ghost predicate Settled(c: City, before: int, done: bool, hitNames: seq<string>, draw: (City, nat) -> Draw)
    reads c
  {
    c.population == if done then AfterHits(before, c.name, hitNames, DrawsFor(draw, c)) else before
  }

  /** The hits of one tick applied to one city, in hit order. */
  method StrikeCity(city: City, destinationsHit: seq<City>, draw: (City, nat) -> Draw)
    modifies city
    ensures city.population
         == AfterHits(old(city.population), city.name, Names(destinationsHit), DrawsFor(draw, city))
  {
    ghost var hitNames := Names(destinationsHit);
    var j := 0;
    while j < |destinationsHit|
      invariant 0 <= j <= |destinationsHit|
      invariant city.population
        == AfterHits(old(city.population), city.name, hitNames[..j], DrawsFor(draw, city))
    {
      assert hitNames[..j + 1][..j] == hitNames[..j];
      if city.name == destinationsHit[j].name {
        var newPopulation := city.population - draw(city, j);
        if newPopulation > 0 {
          city.population := newPopulation;
        } else {
          city.population := 0;
        }
      }
      j := j + 1;
    }
    assert hitNames[..j] == hitNames;
  }

  /** The hits of one tick applied to every city of one country, visited in
      an unspecified order. */
  method StrikeCountry(cities: map<string, City>, destinationsHit: seq<City>, draw: (City, nat) -> Draw)
    requires forall n1, n2 :: n1 in cities && n2 in cities && n1 != n2 ==> cities[n1] != cities[n2]
    modifies cities.Values
    ensures forall name :: name in cities ==>
      Settled(cities[name], old(cities[name].population), true, Names(destinationsHit), draw)
  {
    var todo := cities.Keys;
    while todo != {}
      invariant todo <= cities.Keys
      invariant forall name :: name in cities ==>
        Settled(cities[name], old(cities[name].population), name !in todo, Names(destinationsHit), draw)
      decreases todo
    {
      var name :| name in todo;
      StrikeCity(cities[name], destinationsHit, draw);
      todo := todo - {name};
    }
  }

  /** Striking the cities of country `key` leaves another country's city alone. */
  lemma OtherCountryUntouched(countries: map<string, Country>, key: string, key': string, name: string)
    requires DistinctCities(countries)
    requires key in countries && key' in countries && key' != key && name in countries[key'].cities
    ensures countries[key'].cities[name] !in countries[key].cities.Values
  {
  }

  /** Every city reachable from `countries`. */
  ghost function CitiesOf(countries: map<string, Country>): set<City> {
    set key, name | key in countries && name in countries[key].cities :: countries[key].cities[name]
  }

  /** Every missile battery reachable from `countries`. */
  ghost function BatteriesOf(countries: map<string, Country>): set<MissileBattery> {
    set key, i | key in countries && 0 <= i < |countries[key].missileBatteries|
      :: countries[key].missileBatteries[i]
  }

  /** The seed world: the United States with New York, Los Angeles and two
      batteries holding 10 and 5 missiles; Russia with Moscow, Saint
      Petersburg and one battery holding none. Every object is new. */
  method SeedCountries() returns (countries: map<string, Country>)
    ensures DistinctCities(countries)
    ensures fresh(CitiesOf(countries)) && fresh(BatteriesOf(countries))
    ensures forall c :: c in CitiesOf(countries) ==> 0 <= c.population == c.startingPopulation
    ensures forall b :: b in BatteriesOf(countries) ==> b.missileCount >= 0
    ensures countries.Keys == {"USA", "Russia"}
    ensures countries["USA"].cities.Keys == {"New York", "Los Angeles"}
    ensures countries["Russia"].cities.Keys == {"Moscow", "Saint Petersburg"}
    ensures |countries["USA"].missileBatteries| == 2
    ensures countries["USA"].missileBatteries[0].missileCount == 10
    ensures countries["USA"].missileBatteries[1].missileCount == 5
    ensures |countries["Russia"].missileBatteries| == 1
    ensures countries["Russia"].missileBatteries[0].missileCount == 0
    ensures countries["Russia"].missileBatteries[0].coordinates == GpsCoordinates(55.7558, 37.6176)
    ensures countries["USA"].missileBatteries[0] != countries["Russia"].missileBatteries[0]
    ensures fresh(countries["USA"].missileBatteries[0]) && fresh(countries["Russia"].missileBatteries[0])
    ensures countries["Russia"].cities["Moscow"].population == 9500000
  {
    var newYork := new City("New York", 50000000, 50000000, GpsCoordinates(40.7128, -74.0060), 10);
    var losAngeles := new City("Los Angeles", 7000000, 7000000, GpsCoordinates(34.0522, -118.2437), 10);
    var moscow := new City("Moscow", 9500000, 9500000, GpsCoordinates(55.7558, 37.6176), 10);
    var saintPetersburg := new City("Saint Petersburg", 8000000, 8000000, GpsCoordinates(59.9343, 30.3351), 10);
    var eastCoast := new MissileBattery(GpsCoordinates(40.7128, -74.0060), 0, 10);
    var westCoast := new MissileBattery(GpsCoordinates(34.0522, -118.2437), 0, 5);
    var kremlin := new MissileBattery(GpsCoordinates(55.7558, 37.6176), 0, 0);
    var usa := Country("USA", map["New York" := newYork, "Los Angeles" := losAngeles], [eastCoast, westCoast]);
    var russia := Country("Russia", map["Moscow" := moscow, "Saint Petersburg" := saintPetersburg], [kremlin]);
    countries := map["USA" := usa, "Russia" := russia];
    SeedCities(countries, usa, russia);
    SeedBatteries(countries, usa, russia);
    SeedDistinct(countries, usa, russia);
  }

  lemma SeedCities(countries: map<string, Country>, usa: Country, russia: Country)
    requires countries == map["USA" := usa, "Russia" := russia]
    requires usa.cities.Keys == {"New York", "Los Angeles"}
    requires russia.cities.Keys == {"Moscow", "Saint Petersburg"}
    ensures CitiesOf(countries)
         == {usa.cities["New York"], usa.cities["Los Angeles"],
             russia.cities["Moscow"], russia.cities["Saint Petersburg"]}
  {
    assert usa == countries["USA"] && russia == countries["Russia"];
  }

  lemma SeedBatteries(countries: map<string, Country>, usa: Country, russia: Country)
    requires countries == map["USA" := usa, "Russia" := russia]
    requires |usa.missileBatteries| == 2 && |russia.missileBatteries| == 1
    ensures BatteriesOf(countries)
         == {usa.missileBatteries[0], usa.missileBatteries[1], russia.missileBatteries[0]}
  {
    assert usa == countries["USA"] && russia == countries["Russia"];
  }

  lemma SeedDistinct(countries: map<string, Country>, usa: Country, russia: Country)
    requires countries == map["USA" := usa, "Russia" := russia]
    requires usa.cities.Keys == {"New York", "Los Angeles"}
    requires russia.cities.Keys == {"Moscow", "Saint Petersburg"}
    requires |{usa.cities["New York"], usa.cities["Los Angeles"],
               russia.cities["Moscow"], russia.cities["Saint Petersburg"]}| == 4
    ensures DistinctCities(countries)
  {
  }

  class GameState {
    const id: Uuid
    var missiles: seq<Missile>
    const countries: map<string, Country>
    var players: seq<Player>

    /** Every city of every country. */
    ghost function Cities(): set<City> {
      CitiesOf(countries)
    }

    /** Every missile battery of every country. */
    ghost function Batteries(): set<MissileBattery> {
      BatteriesOf(countries)
    }

    /** The flight state of every missile, in list order. */
    ghost function Flights(): seq<Flight>
      reads this, missiles
    {
      seq(|missiles|, i requires 0 <= i < |missiles| reads this, missiles => missiles[i].View())
    }

    /** Object invariant: distinct missile and city objects, every population
        between 0 and its starting value, no missile count below 0. */
    ghost predicate Valid()
      reads this, Cities(), Batteries()
    {
      && DistinctCities(countries)
      && DistinctMissiles(missiles)
      && PopulationsInRange(Cities())
      && CountsNonNegative(Batteries())
    }

    /** A new game over the seed world, with no missiles and no players. */
    constructor (id: Uuid)
      ensures Valid()
      ensures this.id == id && missiles == [] && players == []
      ensures countries.Keys == {"USA", "Russia"}
      ensures |countries["USA"].missileBatteries| == 2
      ensures countries["USA"].missileBatteries[0].missileCount == 10
      ensures |countries["Russia"].missileBatteries| == 1
      ensures countries["Russia"].missileBatteries[0].missileCount == 0
      ensures countries["Russia"].missileBatteries[0].coordinates == GpsCoordinates(55.7558, 37.6176)
      ensures countries["USA"].missileBatteries[0] != countries["Russia"].missileBatteries[0]
      ensures "Moscow" in countries["Russia"].cities
      ensures fresh(Cities()) && fresh(Batteries())
      ensures fresh(countries["USA"].missileBatteries[0]) && fresh(countries["Russia"].missileBatteries[0])
    {
      var seed := SeedCountries();
      this.id := id;
      missiles := [];
      players := [];
      countries := seed;
    }

    /** Advances every active missile by one tick and returns the
        destinations of those that arrived, in list order. */
    method MoveMissiles(k: Kinematics) returns (destinationsHit: seq<City>)
      requires Valid()
      modifies missiles
      ensures Valid()
      ensures Flights() == StepAll(old(Flights()), k)
      ensures destinationsHit == Hits(old(Flights()), k)
    {
      ghost var before := Flights();
      destinationsHit := [];
      var i := 0;
      while i < |missiles|
        invariant 0 <= i <= |missiles|
        invariant DistinctMissiles(missiles)
        invariant forall j :: 0 <= j < i ==> missiles[j].View() == Step(before[j], k)
        invariant forall j :: i <= j < |missiles| ==> missiles[j].View() == before[j]
        invariant destinationsHit == Hits(before[..i], k)
      {
        var missile := missiles[i];
        HitsPrefix(before, k, i);
        if missile.active {
          var arrived := MoveMissile(missile, k);
          if arrived {
            destinationsHit := destinationsHit + [missile.destination];
          }
        }
        i := i + 1;
      }
      assert |before| == i;
      assert before[..i] == before;
    }

    /** Lowers the population of every city whose name is among the hits,
        once per matching hit, by the draw for that city and hit, floored at
        zero. Countries are visited in an unspecified order. */
    method ApplyCasualties(destinationsHit: seq<City>, draw: (City, nat) -> Draw)
      requires Valid()
      modifies Cities()
      ensures Valid()
      ensures forall c :: c in Cities() ==>
        c.population == AfterHits(old(c.population), c.name, Names(destinationsHit), DrawsFor(draw, c))
      ensures forall c :: c in Cities() ==> 0 <= c.population <= old(c.population)
    {
      var hitNames := Names(destinationsHit);
      if |destinationsHit| > 0 {
        var pending := countries.Keys;
        while pending != {}
          invariant pending <= countries.Keys
          invariant forall key, name :: key in countries && name in countries[key].cities ==>
            Settled(countries[key].cities[name], old(countries[key].cities[name].population),
                    key !in pending, hitNames, draw)
          decreases pending
        {
          var key :| key in pending;
          label before:
          StrikeCountry(countries[key].cities, destinationsHit, draw);
          forall key', name | key' in countries && name in countries[key'].cities && key' != key
            ensures countries[key'].cities[name].population
                 == old@before(countries[key'].cities[name].population)
          {
            OtherCountryUntouched(countries, key, key', name);
          }
          pending := pending - {key};
        }
      }
      forall c | c in Cities()
        ensures c.population == AfterHits(old(c.population), c.name, hitNames, DrawsFor(draw, c))
        ensures 0 <= c.population <= old(c.population)
      {
        var key, name :| key in countries && name in countries[key].cities && c == countries[key].cities[name];
        AfterHitsBounds(old(c.population), c.name, hitNames, DrawsFor(draw, c));
      }
    }

    /** One iteration of the game loop, without the broadcast. */
    method RunTick(k: Kinematics, draw: (City, nat) -> Draw) returns (destinationsHit: seq<City>)
      requires Valid()
      modifies missiles, Cities()
      ensures Valid()
      ensures Flights() == StepAll(old(Flights()), k)
      ensures destinationsHit == Hits(old(Flights()), k)
      ensures forall c :: c in Cities() ==>
        c.population == AfterHits(old(c.population), c.name, Names(destinationsHit), DrawsFor(draw, c))
    {
      destinationsHit := MoveMissiles(k);
      ApplyCasualties(destinationsHit, draw);
    }
  }

  class Player {
    const id: Uuid
    const country: string
    const game: GameState

    constructor (id: Uuid, game: GameState, country: string)
      ensures this.id == id && this.game == game && this.country == country
    {
      this.id := id;
      this.game := game;
      this.country := country;
    }

    /** Fires one missile from `silo` at `target`: refused, with nothing
        changed, when the silo is empty; otherwise one missile fewer in the
        silo and one new active missile at the end of the game's list. */
    method LaunchMissile(target: City, silo: MissileBattery) returns (r: Outcome)
      requires game.Valid()
      modifies silo`missileCount, game`missiles
      ensures game.Valid()
      ensures old(silo.missileCount) == 0 ==>
        && r == Fail(EmptySilo(silo.coordinates))
        && silo.missileCount == 0
        && game.missiles == old(game.missiles)
      ensures old(silo.missileCount) != 0 ==>
        && r == Pass
        && silo.missileCount == old(silo.missileCount) - 1
        && |game.missiles| == |old(game.missiles)| + 1
        && game.missiles[..|old(game.missiles)|] == old(game.missiles)
        && game.Flights()[..|old(game.missiles)|] == old(game.Flights())
        && var m := game.missiles[|old(game.missiles)|];
           && fresh(m)
           && m.launchSite == silo.coordinates
           && m.countryOfOrigin == country
           && m.View() == Flight(target, 2.5, Origin, 1000, true)
    {
      if silo.missileCount == 0 {
        return Fail(EmptySilo(silo.coordinates));
      }
      silo.missileCount := silo.missileCount - 1;
      var missile := new Missile(silo.coordinates, target, 1000, 2.5, country, Origin, true);
      game.missiles := game.missiles + [missile];
      r := Pass;
    }

    /** Adds this player to the end of the game's subscriber list. */
    method Subscribe()
      requires game.Valid()
      modifies game`players
      ensures game.Valid()
      ensures game.players == old(game.players) + [this]
    {
      game.players := game.players + [this];
    }

    /** Removes the first subscriber whose ID is this player's; the others
        keep their order, and nothing changes when there is none. */
    method Unsubscribe()
      requires game.Valid()
      modifies game`players
      ensures game.Valid()
      ensures game.players == RemoveFirst(old(game.players), IdOf, id)
    {
      var players := game.players;
      var i := 0;
      while i < |players|
        invariant 0 <= i <= |players|
        invariant game.players == players
        invariant forall j :: 0 <= j < i ==> IdOf(players[j]) != id
      {
        if players[i].id == id {
          game.players := players[..i] + players[i + 1..];
          RemoveFirstSplice(players, IdOf, id, i);
          return;
        }
        i := i + 1;
      }
      RemoveFirstAbsent(players, IdOf, id);
    }
  }
}
