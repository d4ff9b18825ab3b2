/** What the server does when a client connects: it creates a player for
    Russia, subscribes it to the game's broadcasts and launches one missile
    at Moscow from the first United States battery. */
module Server {
  import opened World
  import opened Game

  /** One client connection, without the socket: the new player is at the
      end of the subscriber list, and the launch succeeds exactly when the
      first United States battery still holds a missile. */
  method ServeClient(game: GameState, id: Uuid) returns (player: Player, r: Outcome)
    requires game.Valid()
    requires "Russia" in game.countries && "Moscow" in game.countries["Russia"].cities
    requires "USA" in game.countries && |game.countries["USA"].missileBatteries| > 0
    modifies game`players, game`missiles, game.countries["USA"].missileBatteries[0]
    ensures game.Valid()
    ensures fresh(player) && player.id == id && player.country == "Russia" && player.game == game
    ensures game.players == old(game.players) + [player]
    ensures r == Pass <==> old(game.countries["USA"].missileBatteries[0].missileCount) != 0
    ensures r == Pass ==>
      game.countries["USA"].missileBatteries[0].missileCount
        == old(game.countries["USA"].missileBatteries[0].missileCount) - 1
    ensures r != Pass ==>
      game.countries["USA"].missileBatteries[0].missileCount
        == old(game.countries["USA"].missileBatteries[0].missileCount)
    ensures r != Pass ==> game.missiles == old(game.missiles)
    ensures r == Pass ==> |game.missiles| == |old(game.missiles)| + 1
    ensures r == Pass ==> game.missiles[..|old(game.missiles)|] == old(game.missiles)
    ensures r == Pass ==>
      game.missiles[|game.missiles| - 1].View()
        == Flight(game.countries["Russia"].cities["Moscow"], 2.5, Origin, 1000, true)
  {
    player := new Player(id, game, "Russia");
    player.Subscribe();
    r := player.LaunchMissile(game.countries["Russia"].cities["Moscow"], game.countries["USA"].missileBatteries[0]);
  }

  /** Over the seed world, the first two clients both launch (the battery
      holds 10 missiles), while a launch from the Russian battery, which
      starts empty, is refused and leaves the missile list as it was. */
  method OpeningMoves() returns (first: Outcome, second: Outcome, fromRussia: Outcome, inFlight: nat)
    ensures first == Pass && second == Pass
    ensures fromRussia.Fail? && fromRussia.error.site == GpsCoordinates(55.7558, 37.6176)
    ensures inFlight == 2
  {
    var game := new GameState(0);
    var one, two;
    one, first := ServeClient(game, 1);
    two, second := ServeClient(game, 2);
    fromRussia := one.LaunchMissile(game.countries["Russia"].cities["Moscow"], game.countries["Russia"].missileBatteries[0]);
    inFlight := |game.missiles|;
  }
}
