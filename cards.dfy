/** The card desk as the round controller sees it: a read-only table from a
    card index to what the card does and how strongly. */
module Cards {

  /** The effect kinds the resolver acts on. */
  datatype Action = DamageBoth | DamageEnemy | DamageSelf | Evade | Heal

  /** One catalog entry: its effect kind and its magnitude (already an integer). */
  datatype Card = Card(action: Action, value: int)

  /** The card desk: every non-negative index names a card. A negative index
      is the "no card" sentinel and is never looked up. */
  type Catalog = nat -> Card
}
