# WildCard round controller in Dafny

WildCard is a two-player card duel. An authoritative server object,
`ServerBehaviour`, drives each match. On every frame it advances a phase machine
(Connecting, Start, Timer, Round, Animation, Finish). When a round's deadline
passes, it resolves the cards both players chose. This project models that
object and proves what it does.

The project has four modules:

- `Cards` (`cards.dfy`): the five effect kinds the resolver acts on, a card, and the
  card desk as a read-only table from card index to card.
- `Combat` (`combat.dfy`): the card resolver as pure functions.
  - `Accumulate` walks the slots in the server's order: slot-major, player-minor,
    skipping negative "no card" indices.
  - `Resolve` turns the two tallies into new healths and visible states.
  - An independent reference, `PlayerTotal`, sums each player's cards separately.
    The lemmas relate the slot walk to it and derive order-independence and the
    health formula from it.
- `RoundControl` (`round_control.dfy`): the controller's state as a value
  (`MatchState`), with one function per operation of the controller and `Update`
  for one frame. Its lemmas state the phase machine's promises: ready barriers, the
  strict deadline, the round counter, the winner, and the invariants a frame keeps.
- `Server` (`server.dfy`): the controller as it runs.
  - `ServerBehaviour` is a class whose methods update its own fields and the two
    `Player` objects' fields in place.
  - The resolver keeps its two loops over a two-element array of tallies.
  - Every method that changes the controller's state is proved to leave
    `Snapshot()` equal to the matching `RoundControl` function applied to the
    old snapshot. So every lemma of `RoundControl` holds of the running object.
    The resolver's helpers are proved against `Combat` instead: `AddCard` against
    `ApplyCard` on the tally array, `SumActions` against `Accumulate`, and
    `SettlePlayer` against `NewHealth` and `Visible` for one player.

The model keeps three behaviours of the code exactly as written:

- **Health has no lower bound.** `ServerBehaviour.cs:97` applies only
  `Mathf.Min(maxHealth, …)`, so health can go negative (`HealthHasNoFloor`).
- **The round counter rises by two per round.** `ServerBehaviour.cs:40`
  post-increments `roundNumber` once per player. So player 0 is told `n`,
  player 1 is told `n + 1`, and the counter ends at `n + 2` (`TimerOpensRound`).
- **The winner is decided last write wins.** `ServerBehaviour.cs:192-196` sets
  `winner = 0` if player 0 is alive, then `winner = 1` if player 1 is alive
  (`Winner`). The Finish phase is only reached from a resolution that left at
  least one player at or below zero. There the winner is the sole survivor, or
  -1 when both fell (`WinnerIsSoleSurvivor`).

## Model

| member | source | states |
|---|---|---|
| Combat.ApplyCard | Assets/Scripts/ServerBehaviour.cs:66-88 | one card folded into the pair of tallies keeps exactly two tallies |
| Combat.ApplyCardContributes | Assets/Scripts/ServerBehaviour.cs:70-88 | folding one card adds to each player's tally exactly what that card contributes to that player: DamageBoth to both, DamageEnemy to the other, DamageSelf, Evade and Heal to the owner, a negative index nothing |
| Combat.Accumulate | Assets/Scripts/ServerBehaviour.cs:61-90 | the slot walk over player 0's slot count yields one tally per player |
| Combat.AccumulateIsPlayerTotal | Assets/Scripts/ServerBehaviour.cs:62-90 | walking the slots slot-major, player-minor gives each player their own cards' self effects plus the opponent's cards' effects on them, summed independently |
| Combat.TotalIgnoresOrder | Assets/Scripts/ServerBehaviour.cs:62-90 | a player's summed contribution depends only on the multiset of cards played, not their slot order |
| Combat.NoCardsTotalZero | Assets/Scripts/ServerBehaviour.cs:66-68 | slots holding only negative "no card" indices contribute a zero tally |
| Combat.NoCardsNoTallies | Assets/Scripts/ServerBehaviour.cs:61-90 | when neither player plays a card, both tallies stay at zero |
| Combat.NewHealth | Assets/Scripts/ServerBehaviour.cs:94-97 | the new health is the smaller of the maximum and old health minus unevaded damage plus healing: it is at most each, equals one of them, and never exceeds old health plus healing |
| Combat.Visible | Assets/Scripts/ServerBehaviour.cs:98-103 | Healing iff health rose, Bleeding iff it fell, Idle iff it stayed the same |
| Combat.Resolve | Assets/Scripts/ServerBehaviour.cs:59-107 | resolution yields two healths, each at most its player's maximum, and two states, each Idle, Bleeding or Healing |
| Combat.ResolveByPlayerTotals | Assets/Scripts/ServerBehaviour.cs:59-107 | each new health is min(max, old - max(0, damage - evade) + heal) over the independent per-player totals, and the state compares new with old |
| Combat.ResolveIgnoresSlotOrder | Assets/Scripts/ServerBehaviour.cs:59-107 | permuting either player's slots leaves the whole resolution unchanged |
| Combat.ResolveNoCards | Assets/Scripts/ServerBehaviour.cs:59-107 | with no cards played and healths at most full, healths are unchanged and both players are Idle |
| Combat.HealthHasNoFloor | Assets/Scripts/ServerBehaviour.cs:94-97 | a hit larger than the remaining health leaves it negative: 1 hit for 5 becomes -4 |
| Combat.ExcessEvadeIsWasted | Assets/Scripts/ServerBehaviour.cs:94-97 | evasion at least as large as the damage cancels it entirely but adds no health |
| Combat.MoreEvadeNeverHurts | Assets/Scripts/ServerBehaviour.cs:94-97 | increasing evasion never lowers the new health |
| Combat.ScenarioEvadePartly | Assets/Scripts/ServerBehaviour.cs:59-107 | DamageEnemy 3 against Evade 2 at full health 7: player 1 goes to 6 and Bleeds, player 0 stays Idle |
| Combat.ScenarioHealOutweighsHit | Assets/Scripts/ServerBehaviour.cs:59-107 | Heal 5 at health 2 against DamageEnemy 4: 2 - 4 + 5 = 3 and Healing; the opponent is untouched |
| RoundControl.ApplyActionsFromTallies | Assets/Scripts/ServerBehaviour.cs:91-105 | the stored healths and returned states are the capped health formula and visible state applied to the two tallies |
| RoundControl.UpdateFollowsCycle | Assets/Scripts/ServerBehaviour.cs:153-207 | a frame moves Start to Timer, Timer to Round, Round to Animation or Finish, Animation to Timer, Finish to Start, or stays; nothing leaves Connecting |
| RoundControl.UpdateSyncsServerState | Assets/Scripts/ServerBehaviour.cs:133-139 | after every frame both players' copy of the phase equals the phase |
| RoundControl.GatesWaitForBothReady | Assets/Scripts/ServerBehaviour.cs:156-182 | in Start, Timer and Animation a frame changes nothing but the players' phase copies until both players are ready |
| RoundControl.StartOpensTimer | Assets/Scripts/ServerBehaviour.cs:156-164 | Start with both ready refills health and enemy health to the maximum, clears ready, sends InitPlayerState then StartTimer to both, and enters Timer |
| RoundControl.AnimationOpensTimer | Assets/Scripts/ServerBehaviour.cs:165-173 | Animation with both ready clears ready, sends StartTimer to both, and enters Timer |
| RoundControl.TimerOpensRound | Assets/Scripts/ServerBehaviour.cs:174-182 | Timer with both ready enters Round with deadline now + 10, clears ready and didFire, tells player 0 the round number n and player 1 n + 1, and leaves the counter at n + 2 |
| RoundControl.RoundWaitsForDeadline | Assets/Scripts/ServerBehaviour.cs:183-189 | Round is left exactly when the deadline is strictly before now, and then through FinishRound with shooter -1 |
| RoundControl.FinishRoundOnlyInRound | Assets/Scripts/ServerBehaviour.cs:109-120 | FinishRound changes nothing outside the Round phase |
| RoundControl.FinishRoundResolvesOnce | Assets/Scripts/ServerBehaviour.cs:109-120 | in Round, FinishRound stores the resolved healths, goes to Animation iff both stay above zero (showing each player the opponent's cards and health and sending Animate to both) and to Finish otherwise |
| RoundControl.FinishResetsToStart | Assets/Scripts/ServerBehaviour.cs:190-203 | Finish sends the winner to both players, clears ready and returns to Start, leaving healths as they are |
| RoundControl.WinnerIsSoleSurvivor | Assets/Scripts/ServerBehaviour.cs:192-196 | after a resolution that ends the match, the winner is the surviving player, or -1 when both fell |
| RoundControl.RoundNumberRisesOnRoundEntry | Assets/Scripts/ServerBehaviour.cs:36-41 | the round counter changes only when Round is entered, and then by two |
| RoundControl.EntryClearsFlags | Assets/Scripts/ServerBehaviour.cs:36-57 | every entry into Timer, Round or Animation clears both ready flags, and entry into Round also clears both didFire flags |
| RoundControl.UpdatePreservesInvariants | Assets/Scripts/ServerBehaviour.cs:153-207 | a frame keeps every health at most its maximum, never changes maxima or chosen cards, and so keeps the next frame well-defined |
| RoundControl.RoundLastsRoundTime | Assets/Scripts/ServerBehaviour.cs:27-34 | a round opened at time t is still open at every frame up to t + 10 and closed at the first frame after it |
| Server.ServerBehaviour.constructor | Assets/Scripts/ServerBehaviour.cs:8-25 | a new controller is in Connecting with round number 0, no calls sent, and its two distinct players |
| Server.ServerBehaviour.StartRound | Assets/Scripts/ServerBehaviour.cs:27-34 | the new state is RoundControl.StartRound of the old: Round, deadline now + 10, then each player started in slot order |
| Server.ServerBehaviour.StartPlayerRound | Assets/Scripts/ServerBehaviour.cs:36-41 | clears one player's ready and didFire, tells that player the current counter, then increments it |
| Server.ServerBehaviour.Animate | Assets/Scripts/ServerBehaviour.cs:43-57 | enters Animation; each player's ready is cleared, their copy of the enemy's cards becomes the enemy's chosen cards, their enemy health the enemy's health, and Animate is sent to them |
| Server.ServerBehaviour.AddCard | Assets/Scripts/ServerBehaviour.cs:70-88 | the tally array afterwards is ApplyCard of the array before |
| Server.ServerBehaviour.SumActions | Assets/Scripts/ServerBehaviour.cs:61-90 | the nested loops produce exactly the slot walk Accumulate over player 0's slot count and change nothing else |
| Server.ServerBehaviour.SettlePlayer | Assets/Scripts/ServerBehaviour.cs:94-104 | one player's health becomes NewHealth of the tally, and the returned state is Visible of old against new health |
| Server.ServerBehaviour.ApplyActions | Assets/Scripts/ServerBehaviour.cs:59-107 | the new healths and returned states are RoundControl.ApplyActions of the old state, which is Resolve |
| Server.ServerBehaviour.FinishRound | Assets/Scripts/ServerBehaviour.cs:109-120 | the new state is RoundControl.FinishRound of the old |
| Server.ServerBehaviour.StartTimer | Assets/Scripts/ServerBehaviour.cs:123-131 | enters Timer, clears both ready flags and sends StartTimer to both players in order |
| Server.ServerBehaviour.UpdatePlayerGameStates | Assets/Scripts/ServerBehaviour.cs:133-139 | both players' copy of the phase becomes the phase; nothing else changes |
| Server.ServerBehaviour.InitPlayers | Assets/Scripts/ServerBehaviour.cs:141-150 | both players' health and enemy health become their maximum, and InitPlayerState is sent to both |
| Server.ServerBehaviour.FinishMatch | Assets/Scripts/ServerBehaviour.cs:190-203 | the new state is RoundControl.FinishMatch of the old: winner decided last write wins, both unreadied and told, back to Start |
| Server.ServerBehaviour.Tick | Assets/Scripts/ServerBehaviour.cs:153-207 | one frame changes the state exactly as RoundControl.Update of the old state at time now |

## Left out

- The network layer is not modelled. The client-side calls (`Rpc_StartRound`, `Rpc_Animate`, `Rpc_Finish`, `Rpc_StartTimer`, `Rpc_InitPlayerState`) become entries appended to an outbound log. Their effect on the clients is not modelled.
- A player list of any length other than two is not modelled: the controller holds exactly two distinct players. In the code, `players` is a list whose length `ServerBehaviour.cs` never checks. StartTimer, UpdatePlayerGameStates, InitPlayers and the Finish branch loop over every entry, and Animate indexes `players[1 - i]` for each entry.
- `isServer` is taken to be true: the model is the server's side only.
- `Debug.Log` output is not modelled.
- `Time.fixedTime` becomes the `now` parameter of `Tick`. Time is a real number rather than a float.
- The card desk lookup `GameObject.Find("CardDesk")` becomes a fixed catalog from index to card.
  - The `(int)` cast of a card's value is taken as already done: values are integers.
  - An index beyond the desk's size is not an error in the model.
- `GameController` is not part of this model. `Player` holds only the fields the server reads and writes, and its constructor's initial values are assumptions.
- How clients set `ready` and `selectedCards`, and how players join, are not modelled. Nothing leaves Connecting here, because `ServerBehaviour.cs` never changes that phase itself.
- Combat.Resolve requires player 1 to have at least as many chosen cards as player 0. The code reads player 1's card at each of player 0's slots and would fail otherwise. Cards player 1 holds beyond player 0's count are never read, as in the code.
- The `Action` enum is modelled only by the five kinds the resolver's switch handles. A card of any other kind would fall through that switch and change nothing.
- The states Dead, Shooting and Dodge are declared but never produced by the resolver.
- Callers of the public `FinishRound` other than `Update`, with a shooter other than -1, lie outside `ServerBehaviour.cs`. The method is modelled for every shooter id, but those callers are not.
- C# `int` overflow in the tally sums and health arithmetic is not modelled: integers are unbounded.
- Unity's frame scheduling and concurrency between clients and server are not modelled: a frame is one atomic `Tick`.
