/** A value model of the authoritative round controller: one tick of the
    server's frame update, and each helper it calls, as a function from the
    match before to the match after. The server class in module Server is
    proved to change its fields exactly as these functions say; the lemmas
    here state what the phase machine promises. */
module RoundControl {
  import opened Cards
  import opened Combat

  /** The phases of a match. */
  datatype GameState = Connecting | Start | Timer | Round | Animation | Finish

  /** Length of the card-choosing phase, in time units. */
  const RoundTime: real := 10.0

  /** The fields of one player's controller that the server reads or writes. */
  datatype PlayerRec = PlayerRec(
    ready: bool,
    didFire: bool,
    health: int,
    enemyHealth: int,
    maxHealth: int,
    selectedCards: seq<int>,
    enemySelectedCards: seq<int>,
    serverState: GameState)

  /** Calls the server makes on one player's client (`to` is the player). */
  datatype Rpc =
    | InitPlayerStateRpc(to: nat)
    | StartTimerRpc(to: nat)
    | StartRoundRpc(to: nat, round: int)
    | AnimateRpc(to: nat, state0: PlayerState, state1: PlayerState, shooter: int)
    | FinishRpc(to: nat, winner: int)

  /** Everything the controller owns: the phase, the round deadline, the round
      counter, the two players (by slot) and the calls sent so far. */
  datatype MatchState = MatchState(
    state: GameState,
    endTime: real,
    roundNumber: int,
    players: seq<PlayerRec>,
    log: seq<Rpc>)

  /** A match always has exactly two players. */
  type Match = m: MatchState | |m.players| == 2
    witness MatchState(Connecting, 0.0, 0,
                       [PlayerRec(false, false, 0, 0, 0, [], [], Connecting),
                        PlayerRec(false, false, 0, 0, 0, [], [], Connecting)], [])

  predicate BothReady(m: Match) {
    m.players[0].ready && m.players[1].ready
  }

  predicate BothAlive(m: Match) {
    m.players[0].health > 0 && m.players[1].health > 0
  }

  /** The resolver reads player 1's card at each of player 0's slots. */
  predicate CardsAligned(m: Match) {
    |m.players[0].selectedCards| <= |m.players[1].selectedCards|
  }

  /** Neither player's health is above their maximum. */
  predicate HealthCapped(m: Match) {
    m.players[0].health <= m.players[0].maxHealth && m.players[1].health <= m.players[1].maxHealth
  }

  // ---------------------------------------------------------------------------
  // The helpers of the frame update

  function Refill(p: PlayerRec): PlayerRec {
    p.(health := p.maxHealth, enemyHealth := p.maxHealth)
  }

  /** Both players back to full health, and both told so. */
  function InitPlayers(m: Match): Match {
    m.(players := [Refill(m.players[0]), Refill(m.players[1])],
       log := m.log + [InitPlayerStateRpc(0), InitPlayerStateRpc(1)])
  }

  /** Enter Timer: both ready flags cleared, both clients told. */
  function StartTimer(m: Match): Match {
    m.(state := Timer,
       players := [m.players[0].(ready := false), m.players[1].(ready := false)],
       log := m.log + [StartTimerRpc(0), StartTimerRpc(1)])
  }

  /** One player's part of entering Round: flags cleared, the client told the
      current round number, and the counter advanced. */
  function StartPlayerRound(m: Match, j: nat): Match
    requires j < 2
  {
    m.(players := m.players[j := m.players[j].(ready := false, didFire := false)],
       log := m.log + [StartRoundRpc(j, m.roundNumber)],
       roundNumber := m.roundNumber + 1)
  }

  /** Enter Round with its deadline `RoundTime` after `now`. */
  function StartRound(m: Match, now: real): Match {
    StartPlayerRound(StartPlayerRound(m.(state := Round, endTime := now + RoundTime), 0), 1)
  }

  /** Resolve the round's cards and store the new healths. */
  function ApplyActions(cat: Catalog, m: Match): (Match, seq<PlayerState>)
    requires CardsAligned(m)
  {
    var p0, p1 := m.players[0], m.players[1];
    var r := Resolve(cat, p0.selectedCards, p1.selectedCards, [p0.health, p1.health], [p0.maxHealth, p1.maxHealth]);
    (m.(players := [p0.(health := r.health[0]), p1.(health := r.health[1])]), r.states)
  }

  /** `ApplyActions` in terms of the two tallies the slot walk produces. */
  lemma ApplyActionsFromTallies(cat: Catalog, m: Match, t: seq<Tally>)
    requires CardsAligned(m)
    requires t == Accumulate(cat, m.players[0].selectedCards, m.players[1].selectedCards, |m.players[0].selectedCards|)
    ensures var p0, p1 := m.players[0], m.players[1];
            var h0, h1 := NewHealth(p0.health, t[0], p0.maxHealth), NewHealth(p1.health, t[1], p1.maxHealth);
            ApplyActions(cat, m) == (m.(players := [p0.(health := h0), p1.(health := h1)]),
                                     [Visible(p0.health, h0), Visible(p1.health, h1)])
  {
  }

  /** What player `p` is shown of the opponent for the animation. */
  function ShowEnemy(p: PlayerRec, enemy: PlayerRec): PlayerRec {
    p.(ready := false, enemySelectedCards := enemy.selectedCards, enemyHealth := enemy.health)
  }

  /** Enter Animation: each player sees the opponent's cards and health. */
  function Animate(m: Match, nextStates: seq<PlayerState>, shooterID: int): Match
    requires |nextStates| == 2
  {
    var p0, p1 := m.players[0], m.players[1];
    m.(state := Animation,
       players := [ShowEnemy(p0, p1), ShowEnemy(p1, p0)],
       log := m.log + [AnimateRpc(0, nextStates[0], nextStates[1], shooterID),
                       AnimateRpc(1, nextStates[0], nextStates[1], shooterID)])
  }

  /** Ends a round: only from Round, resolves once, then Animation if both
      players live and Finish otherwise. */
  function FinishRound(cat: Catalog, m: Match, shooterID: int): Match
    requires m.state == Round ==> CardsAligned(m)
  {
    if m.state != Round then m
    else
      var (m1, nextStates) := ApplyActions(cat, m);
      if BothAlive(m1) then Animate(m1, nextStates, shooterID) else m1.(state := Finish)
  }

  /** The winner as the Finish phase decides it: player 1 if alive, otherwise
      player 0 if alive, otherwise -1. */
  function Winner(m: Match): int {
    if m.players[1].health > 0 then 1
    else if m.players[0].health > 0 then 0
    else -1
  }

  /** The Finish phase: announce the winner, clear both ready flags, back to Start. */
  function FinishMatch(m: Match): Match {
    var w := Winner(m);
    m.(state := Start,
       players := [m.players[0].(ready := false), m.players[1].(ready := false)],
       log := m.log + [FinishRpc(0, w), FinishRpc(1, w)])
  }

  /** Every player's copy of the phase set to the current phase. */
  function UpdatePlayerGameStates(m: Match): Match {
    m.(players := [m.players[0].(serverState := m.state), m.players[1].(serverState := m.state)])
  }

  /** The resolver can only run on aligned card sequences. */
  predicate CanTick(m: Match, now: real) {
    m.state == Round && m.endTime < now ==> CardsAligned(m)
  }

  /** One frame of the server at time `now`. */
  function Update(cat: Catalog, m: Match, now: real): Match
    requires CanTick(m, now)
  {
    var m1 :=
      if m.state == Start then (if BothReady(m) then StartTimer(InitPlayers(m)) else m)
      else if m.state == Animation then (if BothReady(m) then StartTimer(m) else m)
      else if m.state == Timer then (if BothReady(m) then StartRound(m, now) else m)
      else if m.state == Round then (if m.endTime < now then FinishRound(cat, m, -1) else m)
      else if m.state == Finish then FinishMatch(m)
      else m;
    UpdatePlayerGameStates(m1)
  }

  // ---------------------------------------------------------------------------
  // What the phase machine promises

  /** The phases a tick can lead to from each phase. */
  function Successors(s: GameState): set<GameState> {
    match s
    case Connecting => {Connecting}
    case Start => {Start, Timer}
    case Timer => {Timer, Round}
    case Round => {Round, Animation, Finish}
    case Animation => {Animation, Timer}
    case Finish => {Start}
  }

  /** A tick only ever follows the cycle Start, Timer, Round, Animation or
      Finish, ...; nothing leaves Connecting. */
  lemma UpdateFollowsCycle(cat: Catalog, m: Match, now: real)
    requires CanTick(m, now)
    ensures Update(cat, m, now).state in Successors(m.state)
    ensures m.state == Connecting ==> Update(cat, m, now) == UpdatePlayerGameStates(m)
  {
  }

  /** After every tick both players' copy of the phase is the phase. */
  lemma UpdateSyncsServerState(cat: Catalog, m: Match, now: real)
    requires CanTick(m, now)
    ensures var m' := Update(cat, m, now);
            m'.players[0].serverState == m'.state && m'.players[1].serverState == m'.state
  {
  }

  /** Start, Timer and Animation wait until both players are ready: until
      then a tick changes nothing but the players' copy of the phase. */
  lemma GatesWaitForBothReady(cat: Catalog, m: Match, now: real)
    requires m.state in {Start, Timer, Animation} && !BothReady(m)
    ensures Update(cat, m, now) == UpdatePlayerGameStates(m)
  {
  }

  /** Start with both ready: both healths and enemy healths refilled, both
      ready flags cleared, and Timer entered. */
  lemma StartOpensTimer(cat: Catalog, m: Match, now: real)
    requires m.state == Start && BothReady(m)
    ensures var m' := Update(cat, m, now);
            && m'.state == Timer
            && m'.roundNumber == m.roundNumber && m'.endTime == m.endTime
            && m'.log == m.log + [InitPlayerStateRpc(0), InitPlayerStateRpc(1), StartTimerRpc(0), StartTimerRpc(1)]
            && forall k :: 0 <= k < 2 ==>
                 m'.players[k] == m.players[k].(health := m.players[k].maxHealth,
                                                enemyHealth := m.players[k].maxHealth,
                                                ready := false, serverState := Timer)
  {
  }

  /** Animation with both ready: both ready flags cleared and Timer entered. */
  lemma AnimationOpensTimer(cat: Catalog, m: Match, now: real)
    requires m.state == Animation && BothReady(m)
    ensures var m' := Update(cat, m, now);
            && m'.state == Timer
            && m'.log == m.log + [StartTimerRpc(0), StartTimerRpc(1)]
            && forall k :: 0 <= k < 2 ==> m'.players[k] == m.players[k].(ready := false, serverState := Timer)
  {
  }

  /** Timer with both ready: Round entered with deadline now + 10, ready and
      didFire cleared, each client told the round number, which rises by one
      per player and so by two in all. */
  lemma TimerOpensRound(cat: Catalog, m: Match, now: real)
    requires m.state == Timer && BothReady(m)
    ensures var m' := Update(cat, m, now);
            && m'.state == Round
            && m'.endTime == now + RoundTime
            && m'.roundNumber == m.roundNumber + 2
            && m'.log == m.log + [StartRoundRpc(0, m.roundNumber), StartRoundRpc(1, m.roundNumber + 1)]
            && forall k :: 0 <= k < 2 ==>
                 m'.players[k] == m.players[k].(ready := false, didFire := false, serverState := Round)
  {
  }

  /** Round ends only once the deadline has strictly passed; until then a
      tick changes nothing but the players' copy of the phase. */
  lemma RoundWaitsForDeadline(cat: Catalog, m: Match, now: real)
    requires m.state == Round && CanTick(m, now)
    ensures m.endTime < now ==> Update(cat, m, now) == UpdatePlayerGameStates(FinishRound(cat, m, -1))
    ensures !(m.endTime < now) ==> Update(cat, m, now) == UpdatePlayerGameStates(m)
    ensures Update(cat, m, now).state == Round <==> !(m.endTime < now)
  {
  }

  /** Ending a round does nothing outside Round. */
  lemma FinishRoundOnlyInRound(cat: Catalog, m: Match, shooterID: int)
    requires m.state != Round
    ensures FinishRound(cat, m, shooterID) == m
  {
  }

  /** Ending a round resolves the cards once: both healths become the
      resolver's, and the match goes to Animation when both players live and
      straight to Finish otherwise. Cards, counter and deadline are kept. */
  lemma FinishRoundResolvesOnce(cat: Catalog, m: Match, shooterID: int)
    requires m.state == Round && CardsAligned(m)
    ensures var p0, p1 := m.players[0], m.players[1];
            var r := Resolve(cat, p0.selectedCards, p1.selectedCards, [p0.health, p1.health], [p0.maxHealth, p1.maxHealth]);
            var m' := FinishRound(cat, m, shooterID);
            && m'.players[0].health == r.health[0] && m'.players[1].health == r.health[1]
            && (m'.state == Animation <==> r.health[0] > 0 && r.health[1] > 0)
            && (m'.state == Finish <==> r.health[0] <= 0 || r.health[1] <= 0)
            && m'.roundNumber == m.roundNumber && m'.endTime == m.endTime
            && (forall k :: 0 <= k < 2 ==> m'.players[k].selectedCards == m.players[k].selectedCards)
            && (m'.state == Finish ==> m'.log == m.log)
            && (m'.state == Animation ==>
                  && m'.log == m.log + [AnimateRpc(0, r.states[0], r.states[1], shooterID),
                                        AnimateRpc(1, r.states[0], r.states[1], shooterID)]
                  && forall k :: 0 <= k < 2 ==>
                       && !m'.players[k].ready
                       && m'.players[k].enemyHealth == r.health[1 - k]
                       && m'.players[k].enemySelectedCards == m.players[1 - k].selectedCards)
  {
  }

  /** Finish announces the winner to both players, clears both ready flags
      and resets to Start; healths are left as they are. */
  lemma FinishResetsToStart(cat: Catalog, m: Match, now: real)
    requires m.state == Finish
    ensures var m' := Update(cat, m, now);
            && m'.state == Start
            && m'.log == m.log + [FinishRpc(0, Winner(m)), FinishRpc(1, Winner(m))]
            && forall k :: 0 <= k < 2 ==> m'.players[k] == m.players[k].(ready := false, serverState := Start)
  {
  }

  /** When a resolution ends the match, the announced winner is the one
      surviving player, or -1 when both fell in the same round. */
  lemma WinnerIsSoleSurvivor(cat: Catalog, m: Match, shooterID: int)
    requires m.state == Round && CardsAligned(m)
    requires FinishRound(cat, m, shooterID).state == Finish
    ensures var m' := FinishRound(cat, m, shooterID);
            && (Winner(m') == 0 <==> m'.players[0].health > 0)
            && (Winner(m') == 1 <==> m'.players[1].health > 0)
            && (Winner(m') == -1 <==> m'.players[0].health <= 0 && m'.players[1].health <= 0)
  {
  }

  /** The round counter moves only when Round is entered, and then by two. */
  lemma RoundNumberRisesOnRoundEntry(cat: Catalog, m: Match, now: real)
    requires CanTick(m, now)
    ensures var m' := Update(cat, m, now);
            m'.roundNumber == if m.state != Round && m'.state == Round then m.roundNumber + 2 else m.roundNumber
  {
  }

  /** Every entry into Timer, Round or Animation clears both ready flags, and
      entry into Round also clears both didFire flags. */
  lemma EntryClearsFlags(cat: Catalog, m: Match, now: real)
    requires CanTick(m, now)
    ensures var m' := Update(cat, m, now);
            m'.state != m.state && m'.state in {Timer, Round, Animation} ==>
              !m'.players[0].ready && !m'.players[1].ready
    ensures var m' := Update(cat, m, now);
            m'.state != m.state && m'.state == Round ==>
              !m'.players[0].didFire && !m'.players[1].didFire
  {
  }

  /** A tick never raises a health above its maximum, never changes the
      maxima or the chosen cards, and so keeps the next tick possible. */
  lemma UpdatePreservesInvariants(cat: Catalog, m: Match, now: real, later: real)
    requires CanTick(m, now) && CardsAligned(m) && HealthCapped(m)
    ensures var m' := Update(cat, m, now);
            && HealthCapped(m')
            && CardsAligned(m')
            && CanTick(m', later)
            && (forall k :: 0 <= k < 2 ==> m'.players[k].maxHealth == m.players[k].maxHealth)
            && (forall k :: 0 <= k < 2 ==> m'.players[k].selectedCards == m.players[k].selectedCards)
  {
  }

  /** A round opened at time t stays open at every tick up to t + 10 and
      closes at the first tick after it. */
  lemma RoundLastsRoundTime(cat: Catalog, m: Match, t: real, now: real)
    requires m.state == Timer && BothReady(m) && CardsAligned(m)
    ensures var m1 := Update(cat, m, t);
            && CanTick(m1, now)
            && (Update(cat, m1, now).state == Round <==> now <= t + RoundTime)
  {
    var m1 := Update(cat, m, t);
    TimerOpensRound(cat, m, t);
    assert CardsAligned(m1);
    RoundWaitsForDeadline(cat, m1, now);
  }
}
