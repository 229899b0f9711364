/** Who is credited for a scoring event of the shared game server. */
module KillScoring {
  import opened Basics
  import opened ProgramState

  /** A player as the server reports one: a name and the client number of the connection. */
  datatype Player = Player(name: string, clientNum: int)

  datatype ScoringEvent = Kill(killer: Player, victim: Player) | Death(victim: Player)

  /** Both sides of a wager: the wallet and the player bound to it. */
  datatype Seats = Seats(maker: Pubkey, makerPlayer: Player, opponent: Pubkey, opponentPlayer: Player)

  datatype Credit = Credit(beneficiary: Pubkey, victim: Pubkey)

  /** scoringWallets; None where nobody is credited. */
  function ScoringWallets(event: ScoringEvent, seats: Seats): Option<Credit> {
    var victimIsMaker := event.victim == seats.makerPlayer;
    var victimIsOpponent := event.victim == seats.opponentPlayer;
    if !victimIsMaker && !victimIsOpponent then None
    else
      var expectedKiller := if victimIsMaker then seats.opponentPlayer else seats.makerPlayer;
      if event.Kill? && event.killer != expectedKiller then None
      else if victimIsMaker then Some(Credit(seats.opponent, seats.maker))
      else Some(Credit(seats.maker, seats.opponent))
  }

  function PlayerOf(seats: Seats, wallet: Pubkey): Player {
    if wallet == seats.maker then seats.makerPlayer else seats.opponentPlayer
  }

  predicate Distinct(seats: Seats) {
    seats.maker != seats.opponent && seats.makerPlayer != seats.opponentPlayer
  }

  function Swapped(seats: Seats): Seats {
    Seats(seats.opponent, seats.opponentPlayer, seats.maker, seats.makerPlayer)
  }

  /** A credit goes from the wallet whose player died to the other one, and for a kill only if the other one's
    * player made it; every such event is credited.
    */
  lemma CreditedIff(event: ScoringEvent, seats: Seats, credit: Credit)
    requires Distinct(seats)
    ensures ScoringWallets(event, seats) == Some(credit) <==>
              && {credit.beneficiary, credit.victim} == {seats.maker, seats.opponent}
              && PlayerOf(seats, credit.victim) == event.victim
              && (event.Kill? ==> PlayerOf(seats, credit.beneficiary) == event.killer)
  {
  }

  /** Nobody is credited for killing oneself. */
  lemma SuicideIsNoKill(player: Player, seats: Seats)
    requires Distinct(seats)
    ensures ScoringWallets(Kill(player, player), seats) == None
  {
  }

  /** It does not matter who made the wager, exactly when the two seats are told apart by their players. */
  lemma SeatsAreSymmetricIff(seats: Seats)
    requires seats.maker != seats.opponent
    ensures (forall event :: ScoringWallets(event, seats) == ScoringWallets(event, Swapped(seats))) <==> Distinct(seats)
  {
    if !Distinct(seats) {
      var event := Death(seats.makerPlayer);
      assert ScoringWallets(event, seats) != ScoringWallets(event, Swapped(seats));
    }
  }

  /** With different names the credit of an event never changes, whatever client numbers its players have
    * when it is processed again.
    */
  lemma CreditIsStable(event: ScoringEvent, seats: Seats, later: Seats)
    requires seats.maker != seats.opponent && seats.makerPlayer.name != seats.opponentPlayer.name
    requires later.maker == seats.maker && later.opponent == seats.opponent
    requires later.makerPlayer.name == seats.makerPlayer.name && later.opponentPlayer.name == seats.opponentPlayer.name
    requires ScoringWallets(event, seats).Some? && ScoringWallets(event, later).Some?
    ensures ScoringWallets(event, seats) == ScoringWallets(event, later)
  {
  }
}
