/** `UserGameData`: the per-user economy record persisted by the ledger. */
module GameData {
  import opened Primitives

  /** One user's record. `money` is a `ulong`, so it is never negative;
      `lastDaily` and `lastDice` are timestamps in ticks. The record is a
      value: every construction is a fresh record and no two users can share
      one. */
  datatype UserGameData = UserGameData(money: U64, lastDaily: Ticks, lastDice: Ticks)

  /** The record of a user seen for the first time: no money, and both
      timestamps at the "never" sentinel. */
  function Default(): (r: UserGameData)
    ensures r.money == 0
    ensures r.lastDaily == MIN_TICKS && r.lastDice == MIN_TICKS
  {
    UserGameData(0, MIN_TICKS, MIN_TICKS)
  }
}
