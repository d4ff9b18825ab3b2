/** The entities of the missile-command world.

    What the server never changes after building it (coordinates, a
    country's collections, a city's name) is a datatype or a `const`
    field; what it updates in place (a city's population, a battery's
    missile count, a missile's position, altitude and active flag) is a
    mutable field of a class, because the Go code holds these entities
    by pointer and writes through the pointer. */
module World {

  /** A UUID: 128 opaque bits, only ever compared for equality. */
  type Uuid = bv128

  /** Latitude and longitude in degrees. The source uses float64; the
      model keeps exact reals and never does trajectory arithmetic on them. */
  datatype GpsCoordinates = GpsCoordinates(latitude: real, longitude: real)

  /** The zero value of GpsCoordinates, which a new missile's position
      in flight starts at (the launch code never sets it). */
  const Origin := GpsCoordinates(0.0, 0.0)

  class City {
    const name: string
    const startingPopulation: int
    var population: int
    const coordinates: GpsCoordinates
    const radius: int

    constructor (name: string, startingPopulation: int, population: int,
                 coordinates: GpsCoordinates, radius: int)
      ensures this.name == name && this.startingPopulation == startingPopulation
      ensures this.population == population
      ensures this.coordinates == coordinates && this.radius == radius
    {
      this.name := name;
      this.startingPopulation := startingPopulation;
      this.population := population;
      this.coordinates := coordinates;
      this.radius := radius;
    }
  }

  class MissileBattery {
    const coordinates: GpsCoordinates
    const range: int
    var missileCount: int

    constructor (coordinates: GpsCoordinates, range: int, missileCount: int)
      ensures this.coordinates == coordinates && this.range == range
      ensures this.missileCount == missileCount
    {
      this.coordinates := coordinates;
      this.range := range;
      this.missileCount := missileCount;
    }
  }

  /** A country: its cities by name and its launch sites in order. The
      maps and slices are never reassigned; only the cities and batteries
      they point to change. */
  datatype Country = Country(
    name: string,
    cities: map<string, City>,
    missileBatteries: seq<MissileBattery>)

  /** The value of a missile that one tick of the simulation reads and
      writes: its target and speed, and the state that changes. */
  datatype Flight = Flight(
    destination: City,
    speedMach: real,
    position: GpsCoordinates,
    altitude: int,
    active: bool)

  class Missile {
    const launchSite: GpsCoordinates
    const destination: City
    var altitudeMeters: int
    const speedMach: real
    const countryOfOrigin: string
    var positionInFlight: GpsCoordinates
    var active: bool

    /** The flight state of this missile as a value. */
    ghost function View(): Flight
      reads this
    {
      Flight(destination, speedMach, positionInFlight, altitudeMeters, active)
    }

    constructor (launchSite: GpsCoordinates, destination: City, altitudeMeters: int,
                 speedMach: real, countryOfOrigin: string,
                 positionInFlight: GpsCoordinates, active: bool)
      ensures this.launchSite == launchSite && this.destination == destination
      ensures this.altitudeMeters == altitudeMeters && this.speedMach == speedMach
      ensures this.countryOfOrigin == countryOfOrigin
      ensures this.positionInFlight == positionInFlight && this.active == active
    {
      this.launchSite := launchSite;
      this.destination := destination;
      this.altitudeMeters := altitudeMeters;
      this.speedMach := speedMach;
      this.countryOfOrigin := countryOfOrigin;
      this.positionInFlight := positionInFlight;
      this.active := active;
    }
  }
}
