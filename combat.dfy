/** The simultaneous-action resolver: how one round's card choices of the two
    players turn into new healths and visible states. Everything here is a pure
    function; the server's in-place resolver is proved against `Resolve`. */
module Combat {
  import opened Cards

  /** What a player's avatar shows after a round. The resolver only ever
      produces Idle, Bleeding and Healing. */
  datatype PlayerState = Idle | Bleeding | Healing | Dead | Shooting | Dodge

  /** One player's running totals for a round. */
  datatype Tally = Tally(damage: int, heal: int, evade: int)


  function Plus(a: Tally, b: Tally): Tally {
    Tally(a.damage + b.damage, a.heal + b.heal, a.evade + b.evade)
  }

  function Max(a: int, b: int): int { if a < b then b else a }

  function Min(a: int, b: int): int { if a < b then a else b }

  // ---------------------------------------------------------------------------
  // Slot-major accumulation, as the server's nested loop performs it

  /** Folds the card with index `idx`, played by player `j`, into the pair of
      tallies `acc` (indexed by player). */
  function ApplyCard(cat: Catalog, acc: seq<Tally>, j: nat, idx: int): (r: seq<Tally>)
    requires |acc| == 2 && j < 2
    ensures |r| == 2
  {
    if idx < 0 then acc
    else
      var card := cat(idx);
      var v := card.value;
      var o := 1 - j;
      match card.action
      case DamageBoth =>
        acc[j := acc[j].(damage := acc[j].damage + v)][o := acc[o].(damage := acc[o].damage + v)]
      case DamageEnemy => acc[o := acc[o].(damage := acc[o].damage + v)]
      case DamageSelf => acc[j := acc[j].(damage := acc[j].damage + v)]
      case Evade => acc[j := acc[j].(evade := acc[j].evade + v)]
      case Heal => acc[j := acc[j].(heal := acc[j].heal + v)]
  }

  /** Processes slot `i`: player 0's card, then player 1's card. */
  function ApplySlot(cat: Catalog, acc: seq<Tally>, c0: seq<int>, c1: seq<int>, i: nat): (r: seq<Tally>)
    requires |acc| == 2 && i < |c0| && i < |c1|
    ensures |r| == 2
  {
    ApplyCard(cat, ApplyCard(cat, acc, 0, c0[i]), 1, c1[i])
  }

  /** The tallies after the first `n` slots, walked slot-major, player-minor. */
  function Accumulate(cat: Catalog, c0: seq<int>, c1: seq<int>, n: nat): (r: seq<Tally>)
    requires n <= |c0| && n <= |c1|
    ensures |r| == 2
  {
    if n == 0 then [Tally(0, 0, 0), Tally(0, 0, 0)]
    else ApplySlot(cat, Accumulate(cat, c0, c1, n - 1), c0, c1, n - 1)
  }

  // ---------------------------------------------------------------------------
  // Independent reference: each player's totals from two separate sums

  /** What `card` adds to one player's tally; `own` says whether that player
      played it. */
  function Contribution(card: Card, own: bool): Tally {
    var v := card.value;
    match card.action
    case DamageBoth => Tally(v, 0, 0)
    case DamageEnemy => if own then Tally(0, 0, 0) else Tally(v, 0, 0)
    case DamageSelf => if own then Tally(v, 0, 0) else Tally(0, 0, 0)
    case Evade => if own then Tally(0, 0, v) else Tally(0, 0, 0)
    case Heal => if own then Tally(0, v, 0) else Tally(0, 0, 0)
  }

  /** The "no card" sentinel contributes nothing. */
  function CardContribution(cat: Catalog, idx: int, own: bool): Tally {
    if idx < 0 then Tally(0, 0, 0) else Contribution(cat(idx), own)
  }

  /** Sum of what the first `n` cards of `cards` contribute to one player. */
  function Total(cat: Catalog, cards: seq<int>, own: bool, n: nat): Tally
    requires n <= |cards|
  {
    if n == 0 then Tally(0, 0, 0)
    else Plus(Total(cat, cards, own, n - 1), CardContribution(cat, cards[n - 1], own))
  }

  /** A player's tally over the first `n` slots: the effects of their own
      cards plus the effects of the opponent's cards on them. */
  function PlayerTotal(cat: Catalog, mine: seq<int>, theirs: seq<int>, n: nat): Tally
    requires n <= |mine| && n <= |theirs|
  {
    Plus(Total(cat, mine, true, n), Total(cat, theirs, false, n))
  }

  /** Folding one card changes each player's tally by exactly that card's
      contribution to that player. */
  lemma ApplyCardContributes(cat: Catalog, acc: seq<Tally>, j: nat, idx: int, p: nat)
    requires |acc| == 2 && j < 2 && p < 2
    ensures ApplyCard(cat, acc, j, idx)[p] == Plus(acc[p], CardContribution(cat, idx, p == j))
  {
  }

  lemma PlusRegroup(mine: Tally, theirs: Tally, a: Tally, b: Tally)
    ensures Plus(Plus(Plus(mine, theirs), a), b) == Plus(Plus(mine, a), Plus(theirs, b))
    ensures Plus(Plus(Plus(mine, theirs), b), a) == Plus(Plus(mine, a), Plus(theirs, b))
  {
  }

  /** Walking the slots in slot-major order gives each player exactly the
      independently summed effects of both card sequences. */
  lemma {:induction false} AccumulateIsPlayerTotal(cat: Catalog, c0: seq<int>, c1: seq<int>, n: nat)
    requires n <= |c0| && n <= |c1|
    ensures Accumulate(cat, c0, c1, n) == [PlayerTotal(cat, c0, c1, n), PlayerTotal(cat, c1, c0, n)]
  {
    if n > 0 {
      AccumulateIsPlayerTotal(cat, c0, c1, n - 1);
      var acc := Accumulate(cat, c0, c1, n - 1);
      var x0, x1 := c0[n - 1], c1[n - 1];
      var mid := ApplyCard(cat, acc, 0, x0);
      var r := Accumulate(cat, c0, c1, n);
      assert r == ApplyCard(cat, mid, 1, x1);
      ApplyCardContributes(cat, acc, 0, x0, 0);
      ApplyCardContributes(cat, mid, 1, x1, 0);
      ApplyCardContributes(cat, acc, 0, x0, 1);
      ApplyCardContributes(cat, mid, 1, x1, 1);
      PlusRegroup(Total(cat, c0, true, n - 1), Total(cat, c1, false, n - 1),
                  CardContribution(cat, x0, true), CardContribution(cat, x1, false));
      PlusRegroup(Total(cat, c1, true, n - 1), Total(cat, c0, false, n - 1),
                  CardContribution(cat, x1, true), CardContribution(cat, x0, false));
    }
  }

  /** The sum over the first `n` cards depends on those cards only. */
  lemma {:induction false} TotalAgrees(cat: Catalog, s: seq<int>, t: seq<int>, own: bool, n: nat)
    requires n <= |s| && n <= |t|
    requires forall i :: 0 <= i < n ==> s[i] == t[i]
    ensures Total(cat, s, own, n) == Total(cat, t, own, n)
  {
    if n > 0 {
      TotalAgrees(cat, s, t, own, n - 1);
    }
  }

  lemma PlusSwapLast(a: Tally, b: Tally, c: Tally)
    ensures Plus(Plus(a, b), c) == Plus(Plus(a, c), b)
  {
  }

  /** Taking the card at slot `k` out of a sequence takes its contribution out
      of the sum. */
  lemma {:induction false} TotalRemove(cat: Catalog, b: seq<int>, k: nat, own: bool, n: nat)
    requires k < n <= |b|
    ensures Total(cat, b, own, n)
         == Plus(Total(cat, b[..k] + b[k + 1..], own, n - 1), CardContribution(cat, b[k], own))
  {
    var b' := b[..k] + b[k + 1..];
    assert forall i :: 0 <= i < k ==> b'[i] == b[i];
    if n == k + 1 {
      TotalAgrees(cat, b, b', own, k);
    } else {
      TotalRemove(cat, b, k, own, n - 1);
      assert b'[n - 2] == b[n - 1];
      PlusSwapLast(Total(cat, b', own, n - 2), CardContribution(cat, b[k], own), CardContribution(cat, b[n - 1], own));
    }
  }

  /** Taking the card at slot `k` out of a sequence takes one copy of it out
      of the sequence's multiset. */
  lemma MultisetRemove(b: seq<int>, k: nat)
    requires k < |b|
    ensures multiset(b[..k] + b[k + 1..]) == multiset(b) - multiset{b[k]}
  {
    assert b == b[..k] + [b[k]] + b[k + 1..];
  }

  /** The order of a player's cards does not matter: only which cards (with
      multiplicity) they played. */
  lemma {:induction false} TotalIgnoresOrder(cat: Catalog, a: seq<int>, b: seq<int>, own: bool)
    requires multiset(a) == multiset(b)
    ensures Total(cat, a, own, |a|) == Total(cat, b, own, |b|)
    decreases |a|
  {
    if a == [] {
      assert |b| == |multiset(b)| == 0;
    } else {
      var last := |a| - 1;
      var x := a[last];
      assert x in multiset(b);
      var k :| 0 <= k < |b| && b[k] == x;
      MultisetRemove(a, last);
      MultisetRemove(b, k);
      var a' := a[..last] + a[last + 1..];
      var b' := b[..k] + b[k + 1..];
      TotalIgnoresOrder(cat, a', b', own);
      TotalRemove(cat, a, last, own, |a|);
      TotalRemove(cat, b, k, own, |b|);
    }
  }

  // ---------------------------------------------------------------------------
  // Health and visible state

  /** New health from old health and the round's tally: evasion cancels
      damage but never healing, and the result is capped at `maxHealth` only
      from above. */
  function NewHealth(health: int, t: Tally, maxHealth: int): (r: int)
    ensures r <= maxHealth
    ensures r <= health - Max(0, t.damage - t.evade) + t.heal
    ensures r <= health + t.heal
    ensures r == maxHealth || r == health - Max(0, t.damage - t.evade) + t.heal
  {
    Min(maxHealth, health - Max(0, t.damage - t.evade) + t.heal)
  }

  /** Healing iff health rose, Bleeding iff it fell, Idle iff it stayed. */
  function Visible(before: int, after: int): (s: PlayerState)
    ensures s == Healing <==> after > before
    ensures s == Bleeding <==> after < before
    ensures s == Idle <==> after == before
  {
    if after > before then Healing
    else if after < before then Bleeding
    else Idle
  }

  /** The outcome of a round for both players, indexed by player. */
  datatype Resolution = Resolution(health: seq<int>, states: seq<PlayerState>)

  /** Resolves a round. The slot count is player 0's card count; player 1's
      sequence must be at least as long (cards beyond are never read). */
  function Resolve(cat: Catalog, c0: seq<int>, c1: seq<int>, health: seq<int>, maxHealth: seq<int>): (r: Resolution)
    requires |c0| <= |c1| && |health| == 2 && |maxHealth| == 2
    ensures |r.health| == 2 && |r.states| == 2
    ensures forall p :: 0 <= p < 2 ==> r.health[p] <= maxHealth[p]
    ensures forall p :: 0 <= p < 2 ==> r.states[p] in {Idle, Bleeding, Healing}
  {
    var t := Accumulate(cat, c0, c1, |c0|);
    var h0 := NewHealth(health[0], t[0], maxHealth[0]);
    var h1 := NewHealth(health[1], t[1], maxHealth[1]);
    Resolution([h0, h1], [Visible(health[0], h0), Visible(health[1], h1)])
  }

  /** Each player's new health is min(maxHealth, old - max(0, damage - evade)
      + heal), where damage, heal and evade are the independent per-player
      totals of both card sequences over the slots player 0 fills; the
      visible state compares new to old. */
  lemma ResolveByPlayerTotals(cat: Catalog, c0: seq<int>, c1: seq<int>, health: seq<int>, maxHealth: seq<int>, p: nat)
    requires |c0| <= |c1| && |health| == 2 && |maxHealth| == 2 && p < 2
    ensures var n := |c0|;
            var t := if p == 0 then PlayerTotal(cat, c0, c1, n) else PlayerTotal(cat, c1, c0, n);
            var r := Resolve(cat, c0, c1, health, maxHealth);
            && r.health[p] == Min(maxHealth[p], health[p] - Max(0, t.damage - t.evade) + t.heal)
            && r.states[p] == Visible(health[p], r.health[p])
  {
    AccumulateIsPlayerTotal(cat, c0, c1, |c0|);
  }

  /** Rearranging the slots of either player's sequence leaves the round's
      outcome unchanged. */
  lemma ResolveIgnoresSlotOrder(cat: Catalog, c0: seq<int>, c1: seq<int>, d0: seq<int>, d1: seq<int>,
                                health: seq<int>, maxHealth: seq<int>)
    requires |c0| == |c1| && |d0| == |d1| && |health| == 2 && |maxHealth| == 2
    requires multiset(c0) == multiset(d0) && multiset(c1) == multiset(d1)
    ensures Resolve(cat, c0, c1, health, maxHealth) == Resolve(cat, d0, d1, health, maxHealth)
  {
    AccumulateIsPlayerTotal(cat, c0, c1, |c0|);
    AccumulateIsPlayerTotal(cat, d0, d1, |d0|);
    TotalIgnoresOrder(cat, c0, d0, true);
    TotalIgnoresOrder(cat, c0, d0, false);
    TotalIgnoresOrder(cat, c1, d1, true);
    TotalIgnoresOrder(cat, c1, d1, false);
  }

  /** Slots holding only "no card" sentinels contribute nothing. */
  lemma {:induction false} NoCardsTotalZero(cat: Catalog, cards: seq<int>, own: bool, n: nat)
    requires n <= |cards|
    requires forall i :: 0 <= i < n ==> cards[i] < 0
    ensures Total(cat, cards, own, n) == Tally(0, 0, 0)
  {
    if n > 0 {
      NoCardsTotalZero(cat, cards, own, n - 1);
      assert CardContribution(cat, cards[n - 1], own) == Tally(0, 0, 0);
    }
  }

  /** Slots where neither player plays a card leave both tallies at zero. */
  lemma NoCardsNoTallies(cat: Catalog, c0: seq<int>, c1: seq<int>, n: nat)
    requires n <= |c0| && n <= |c1|
    requires forall i :: 0 <= i < n ==> c0[i] < 0
    requires forall i :: 0 <= i < n ==> c1[i] < 0
    ensures Accumulate(cat, c0, c1, n) == [Tally(0, 0, 0), Tally(0, 0, 0)]
  {
    NoCardsTotalZero(cat, c0, true, n);
    NoCardsTotalZero(cat, c0, false, n);
    NoCardsTotalZero(cat, c1, true, n);
    NoCardsTotalZero(cat, c1, false, n);
    AccumulateIsPlayerTotal(cat, c0, c1, n);
  }

  /** When neither player plays a card and both are at most at full health,
      both healths are unchanged and both players show Idle. */
  lemma ResolveNoCards(cat: Catalog, c0: seq<int>, c1: seq<int>, health: seq<int>, maxHealth: seq<int>)
    requires |c0| <= |c1| && |health| == 2 && |maxHealth| == 2
    requires forall i :: 0 <= i < |c0| ==> c0[i] < 0
    requires forall i :: 0 <= i < |c1| ==> c1[i] < 0
    requires health[0] <= maxHealth[0] && health[1] <= maxHealth[1]
    ensures Resolve(cat, c0, c1, health, maxHealth) == Resolution(health, [Idle, Idle])
  {
    NoCardsNoTallies(cat, c0, c1, |c0|);
    assert health == [health[0], health[1]];
  }

  /** Health has no floor: a large enough hit leaves it negative. */
  lemma HealthHasNoFloor()
    ensures NewHealth(1, Tally(5, 0, 0), 7) == -4
  {
  }

  /** Evasion beyond the damage taken is wasted: it never adds health. */
  lemma ExcessEvadeIsWasted(health: int, t: Tally, maxHealth: int)
    requires t.evade >= t.damage
    ensures NewHealth(health, t, maxHealth) == Min(maxHealth, health + t.heal)
  {
  }

  /** More evasion never lowers the new health. */
  lemma MoreEvadeNeverHurts(health: int, t: Tally, extra: nat, maxHealth: int)
    ensures NewHealth(health, t, maxHealth) <= NewHealth(health, t.(evade := t.evade + extra), maxHealth)
  {
  }

  /** Player 0 plays DamageEnemy 3 and player 1 plays Evade 2 in the same slot,
      both at 7 of 7: player 1 loses one point and bleeds, player 0 is idle. */
  lemma ScenarioEvadePartly()
    ensures var cat := (i: nat) => if i == 0 then Card(DamageEnemy, 3) else Card(Evade, 2);
            Resolve(cat, [0], [1], [7, 7], [7, 7]) == Resolution([7, 6], [Idle, Bleeding])
  {
  }

  /** Player 0 at 2 heals 5 while player 1 hits them for 4: 2 - 4 + 5 = 3, so
      player 0 shows Healing; player 1 is untouched. */
  lemma ScenarioHealOutweighsHit()
    ensures var cat := (i: nat) => if i == 0 then Card(Heal, 5) else Card(DamageEnemy, 4);
            Resolve(cat, [0], [1], [2, 7], [7, 7]) == Resolution([3, 7], [Healing, Idle])
  {
  }
}
