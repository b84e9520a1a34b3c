/** The authoritative round controller as the server runs it: a controller
    object whose frame update mutates its own fields and the two players'
    fields in place. Every method is proved to change the state exactly as the
    matching function of module RoundControl says, so the lemmas proved there
    hold of this object. */
module Server {
  import opened Cards
  import opened Combat
  import opened RoundControl

  /** The fields of one player's network controller that the server reads and
      writes. Clients set `ready` and `selectedCards`; the server does the rest. */
  class Player {
    var ready: bool
    var didFire: bool
    var health: int
    var enemyHealth: int
    const maxHealth: int
    var selectedCards: seq<int>
    var enemySelectedCards: seq<int>
    var serverState: GameState

    constructor (maxHealth: int)
      ensures Rec() == PlayerRec(false, false, maxHealth, maxHealth, maxHealth, [], [], Connecting)
    {
      this.maxHealth := maxHealth;
      ready, didFire := false, false;
      health, enemyHealth := maxHealth, maxHealth;
      selectedCards, enemySelectedCards := [], [];
      serverState := Connecting;
    }

    /** This player's fields as a value. */
    function Rec(): PlayerRec
      reads this
    {
      PlayerRec(ready, didFire, health, enemyHealth, maxHealth, selectedCards, enemySelectedCards, serverState)
    }
  }

  /** The round controller of one match. */
  class ServerBehaviour {
    var endTime: real
    var state: GameState
    var roundNumber: int
    /** The calls sent to the clients, oldest first. */
    var log: seq<Rpc>
    /** The two players, by slot. */
    const players: seq<Player>
    /** The card desk. */
    const catalog: Catalog

    ghost predicate Valid() {
      |players| == 2 && players[0] != players[1]
    }

    /** The whole controller state as a value. */
    function Snapshot(): Match
      reads this, players
      requires Valid()
    {
      MatchState(state, endTime, roundNumber, [players[0].Rec(), players[1].Rec()], log)
    }

    constructor (p0: Player, p1: Player, catalog: Catalog)
      requires p0 != p1
      ensures Valid() && players == [p0, p1] && this.catalog == catalog
      ensures state == Connecting && roundNumber == 0 && endTime == 0.0 && log == []
    {
      players := [p0, p1];
      this.catalog := catalog;
      state := Connecting;
      roundNumber := 0;
      endTime := 0.0;
      log := [];
    }

    method StartRound(now: real)
      requires Valid()
      modifies this, players
      ensures Snapshot() == RoundControl.StartRound(old(Snapshot()), now)
    {
      state := Round;
      endTime := now + RoundTime;
      StartPlayerRound(0);
      StartPlayerRound(1);
    }

    method StartPlayerRound(j: nat)
      requires Valid() && j < 2
      modifies this, players[j]
      ensures Snapshot() == RoundControl.StartPlayerRound(old(Snapshot()), j)
    {
      var player := players[j];
      player.ready := false;
      player.didFire := false;
      log := log + [StartRoundRpc(j, roundNumber)];
      roundNumber := roundNumber + 1;
    }

    method Animate(nextStates: seq<PlayerState>, shooterID: int)
      requires Valid() && |nextStates| == 2
      modifies this, players
      ensures Snapshot() == RoundControl.Animate(old(Snapshot()), nextStates, shooterID)
    {
      state := Animation;
      ghost var was0, was1 := players[0].Rec(), players[1].Rec();
      ghost var sent := [AnimateRpc(0, nextStates[0], nextStates[1], shooterID),
                         AnimateRpc(1, nextStates[0], nextStates[1], shooterID)];
      for i := 0 to |players|
        invariant state == Animation && endTime == old(endTime) && roundNumber == old(roundNumber)
        invariant players[0].Rec() == if 0 < i then ShowEnemy(was0, was1) else was0
        invariant players[1].Rec() == if 1 < i then ShowEnemy(was1, was0) else was1
        invariant log == old(log) + sent[..i]
      {
        var player: Player := players[i];
        var enemy: Player := players[1 - i];
        assert player != enemy;
        player.ready := false;
        player.enemySelectedCards := [];
        player.enemyHealth := enemy.health;
        for c := 0 to |enemy.selectedCards|
          modifies player`enemySelectedCards
          invariant player.enemySelectedCards == enemy.selectedCards[..c]
        {
          player.enemySelectedCards := player.enemySelectedCards + [enemy.selectedCards[c]];
        }
        assert enemy.selectedCards[..|enemy.selectedCards|] == enemy.selectedCards;
        assert player.Rec() == ShowEnemy(if i == 0 then was0 else was1, if i == 0 then was1 else was0);
        log := log + [AnimateRpc(i, nextStates[0], nextStates[1], shooterID)];
      }
    }

    /** The effect switch of the resolver: folds the card with index `cdIndex`,
        played by player `j`, into the two tallies in place. */
    method AddCard(playerActions: array<Tally>, j: nat, cdIndex: nat)
      requires playerActions.Length == 2 && j < 2
      modifies playerActions
      ensures playerActions[..] == ApplyCard(catalog, old(playerActions[..]), j, cdIndex)
    {
      var card := catalog(cdIndex);
      var v := card.value;
      match card.action {
        case DamageBoth =>
          playerActions[j] := playerActions[j].(damage := playerActions[j].damage + v);
          playerActions[1 - j] := playerActions[1 - j].(damage := playerActions[1 - j].damage + v);
        case DamageEnemy =>
          playerActions[1 - j] := playerActions[1 - j].(damage := playerActions[1 - j].damage + v);
        case DamageSelf =>
          playerActions[j] := playerActions[j].(damage := playerActions[j].damage + v);
        case Evade =>
          playerActions[j] := playerActions[j].(evade := playerActions[j].evade + v);
        case Heal =>
          playerActions[j] := playerActions[j].(heal := playerActions[j].heal + v);
      }
    }

    /** The resolver's nested loop: walks the slots of player 0's card count,
        player 0's card before player 1's at each slot, skipping "no card"
        entries, and sums each player's damage, heal and evade. */
    method SumActions() returns (tallies: seq<Tally>)
      requires Valid() && CardsAligned(Snapshot())
      ensures tallies == Accumulate(catalog, players[0].selectedCards, players[1].selectedCards, |players[0].selectedCards|)
    {
      var playerActions := new Tally[2](_ => Tally(0, 0, 0));
      ghost var c0, c1 := players[0].selectedCards, players[1].selectedCards;
      var i := 0;
      while i < |players[0].selectedCards|
        modifies playerActions
        invariant 0 <= i <= |c0|
        invariant playerActions[..] == Accumulate(catalog, c0, c1, i)
      {
        ghost var acc := playerActions[..];
        for j := 0 to 2
          modifies playerActions
          invariant j == 0 ==> playerActions[..] == acc
          invariant j == 1 ==> playerActions[..] == ApplyCard(catalog, acc, 0, c0[i])
          invariant j == 2 ==> playerActions[..] == ApplySlot(catalog, acc, c0, c1, i)
        {
          var cdIndex := players[j].selectedCards[i];
          if cdIndex < 0 {
            continue;
          }
          AddCard(playerActions, j, cdIndex);
        }
        i := i + 1;
      }
      tallies := playerActions[..];
    }

    /** The resolver: sums the round's effects, then sets each player's new
        health and reports each player's visible state. */
    method ApplyActions() returns (playerStates: seq<PlayerState>)
      requires Valid() && CardsAligned(Snapshot())
      modifies players
      ensures (Snapshot(), playerStates) == RoundControl.ApplyActions(catalog, old(Snapshot()))
    {
      var playerActions := SumActions();
      ghost var was0, was1 := players[0].Rec(), players[1].Rec();
      ghost var m := Snapshot();
      ApplyActionsFromTallies(catalog, m, playerActions);
      ghost var h := [NewHealth(was0.health, playerActions[0], was0.maxHealth),
                      NewHealth(was1.health, playerActions[1], was1.maxHealth)];
      var states := new PlayerState[2];
      ghost var p0: Player, p1: Player := players[0], players[1];
      for j := 0 to 2
        modifies p0`health, p1`health, states
        invariant players[0].Rec() == if 0 < j then was0.(health := h[0]) else was0
        invariant players[1].Rec() == if 1 < j then was1.(health := h[1]) else was1
        invariant 0 < j ==> states[0] == Visible(was0.health, h[0])
        invariant 1 < j ==> states[1] == Visible(was1.health, h[1])
      {
        states[j] := SettlePlayer(players[j], playerActions[j]);
      }
      playerStates := states[..];
      assert playerStates == [Visible(was0.health, h[0]), Visible(was1.health, h[1])];
      assert Snapshot() == m.(players := [was0.(health := h[0]), was1.(health := h[1])]);
    }

    /** One pass of the resolver's second loop: the player's health becomes
        the capped result of the tally, and the returned state compares it
        with the health before. */
    method SettlePlayer(player: Player, t: Tally) returns (s: PlayerState)
      modifies player`health
      ensures player.Rec() == old(player.Rec()).(health := NewHealth(old(player.health), t, player.maxHealth))
      ensures s == Visible(old(player.health), player.health)
    {
      var playerHP := player.health - Max(0, t.damage - t.evade) + t.heal;
      playerHP := Min(player.maxHealth, playerHP);
      if playerHP > player.health {
        s := Healing;
      } else if playerHP < player.health {
        s := Bleeding;
      } else {
        s := Idle;
      }
      player.health := playerHP;
    }

    method FinishRound(shooterID: int)
      requires Valid() && (state == Round ==> CardsAligned(Snapshot()))
      modifies this, players
      ensures Snapshot() == RoundControl.FinishRound(catalog, old(Snapshot()), shooterID)
    {
      if state == Round {
        var nextStates := ApplyActions();
        if players[0].health > 0 && players[1].health > 0 {
          Animate(nextStates, shooterID);
        } else {
          state := Finish;
        }
      }
    }

    method StartTimer()
      requires Valid()
      modifies this, players
      ensures Snapshot() == RoundControl.StartTimer(old(Snapshot()))
    {
      state := Timer;
      ghost var was0, was1 := players[0].Rec(), players[1].Rec();
      for i := 0 to |players|
        invariant state == Timer && endTime == old(endTime) && roundNumber == old(roundNumber)
        invariant players[0].Rec() == if 0 < i then was0.(ready := false) else was0
        invariant players[1].Rec() == if 1 < i then was1.(ready := false) else was1
        invariant log == old(log) + [StartTimerRpc(0), StartTimerRpc(1)][..i]
      {
        players[i].ready := false;
        log := log + [StartTimerRpc(i)];
      }
    }

    method UpdatePlayerGameStates()
      requires Valid()
      modifies players
      ensures Snapshot() == RoundControl.UpdatePlayerGameStates(old(Snapshot()))
    {
      ghost var was0, was1 := players[0].Rec(), players[1].Rec();
      for i := 0 to |players|
        invariant players[0].Rec() == if 0 < i then was0.(serverState := state) else was0
        invariant players[1].Rec() == if 1 < i then was1.(serverState := state) else was1
      {
        players[i].serverState := state;
      }
    }

    method InitPlayers()
      requires Valid()
      modifies this, players
      ensures Snapshot() == RoundControl.InitPlayers(old(Snapshot()))
    {
      ghost var was0, was1 := players[0].Rec(), players[1].Rec();
      for i := 0 to |players|
        invariant state == old(state) && endTime == old(endTime) && roundNumber == old(roundNumber)
        invariant players[0].Rec() == if 0 < i then Refill(was0) else was0
        invariant players[1].Rec() == if 1 < i then Refill(was1) else was1
        invariant log == old(log) + [InitPlayerStateRpc(0), InitPlayerStateRpc(1)][..i]
      {
        var playerController := players[i];
        playerController.health := playerController.maxHealth;
        playerController.enemyHealth := playerController.maxHealth;
        log := log + [InitPlayerStateRpc(i)];
      }
    }

    /** The Finish phase of a frame: the winner is decided last write wins,
        both players are told and unreadied, and the match returns to Start. */
    method FinishMatch()
      requires Valid()
      modifies this, players
      ensures Snapshot() == RoundControl.FinishMatch(old(Snapshot()))
    {
      var winner := -1;
      if players[0].health > 0 {
        winner := 0;
      }
      if players[1].health > 0 {
        winner := 1;
      }
      assert winner == Winner(Snapshot());
      ghost var was0, was1 := players[0].Rec(), players[1].Rec();
      for i := 0 to |players|
        invariant state == old(state) && endTime == old(endTime) && roundNumber == old(roundNumber)
        invariant players[0].Rec() == if 0 < i then was0.(ready := false) else was0
        invariant players[1].Rec() == if 1 < i then was1.(ready := false) else was1
        invariant log == old(log) + [FinishRpc(0, winner), FinishRpc(1, winner)][..i]
      {
        players[i].ready := false;
        log := log + [FinishRpc(i, winner)];
      }
      state := Start;
    }

    /** One frame of the server at time `now` (the process is the host). */
    method Tick(now: real)
      requires Valid() && CanTick(Snapshot(), now)
      modifies this, players
      ensures Snapshot() == RoundControl.Update(catalog, old(Snapshot()), now)
    {
      if state == Start {
        var pl2ready := players[1].ready;
        var pl1ready := players[0].ready;
        if pl1ready && pl2ready {
          InitPlayers();
          StartTimer();
        }
      } else if state == Animation {
        var pl2ready := players[1].ready;
        var pl1ready := players[0].ready;
        if pl1ready && pl2ready {
          StartTimer();
        }
      } else if state == Timer {
        var pl2ready := players[1].ready;
        var pl1ready := players[0].ready;
        if pl1ready && pl2ready {
          StartRound(now);
        }
      } else if state == Round {
        if endTime < now {
          FinishRound(-1);
        }
      } else if state == Finish {
        FinishMatch();
      }
      UpdatePlayerGameStates();
    }
  }
}
