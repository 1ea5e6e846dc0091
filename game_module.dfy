/** The `/daily` and `/money` slash commands. The random draw and the clock
    are inputs, replies to the user are reduced to a value, and `writeFails`
    stands for every cache write during the command failing or not. */
module GameModule {
  import opened Primitives
  import opened GameData
  import opened GameDataCaching
  import Caching

  const MAX_NUMBER: int := 100
  const MIN_NUMBER: int := 60

  /** `Random.Next()` returns a value in [0, int.MaxValue). */
  const RANDOM_BOUND: int := 0x7FFF_FFFF

  /** The daily cooldown, 24 hours, in ticks. */
  const DAY_TICKS: int := 24 * TICKS_PER_HOUR

  /** What the command tells the user: the bonus granted, or the ticks left
      until the next claim. */
  datatype DailyReply = Granted(bonus: int) | TooEarly(remaining: int)

  /** The daily bonus drawn from a random `draw`. */
  function Bonus(draw: int): (b: int)
    requires 0 <= draw < RANDOM_BOUND
    ensures MIN_NUMBER <= b < MAX_NUMBER
  {
    draw % (MAX_NUMBER - MIN_NUMBER) + MIN_NUMBER
  }

  /** Every bonus in [60, 100) is drawn by some `draw`. */
  lemma BonusCoversRange(b: int)
    requires MIN_NUMBER <= b < MAX_NUMBER
    ensures Bonus(b - MIN_NUMBER) == b
  {
  }

  /** At least 24 hours have passed since the last daily claim. The
      source compares `TotalHours`, a double, with 24.0; for elapsed times
      near one day the tick counts are far below 2^53, so the comparison on
      ticks decides the same way. */
  predicate CanClaim(d: UserGameData, now: Ticks) {
    now - d.lastDaily >= DAY_TICKS
  }

  /** The record after a successful claim of `bonus`, stamped `stamp`. */
  function Claimed(d: UserGameData, stamp: Ticks, bonus: int): (r: UserGameData)
    requires MIN_NUMBER <= bonus < MAX_NUMBER
    ensures r.lastDaily == stamp && r.lastDice == d.lastDice
    ensures d.money + bonus < U64_MODULUS ==> r.money == d.money + bonus
    ensures d.money + bonus >= U64_MODULUS ==> r.money == d.money + bonus - U64_MODULUS
  {
    d.(money := WrapAdd(d.money, bonus), lastDaily := stamp)
  }

  /** A user never seen before can always claim, as soon as one day has
      passed since `DateTime.MinValue`. */
  lemma NewUserCanClaim(now: Ticks)
    requires now >= DAY_TICKS
    ensures CanClaim(Default(), now)
  {
  }

  /** Right after a successful claim the next claim is refused, for a whole
      day. */
  lemma ClaimStartsCooldown(d: UserGameData, stamp: Ticks, later: Ticks, bonus: int)
    requires MIN_NUMBER <= bonus < MAX_NUMBER
    requires stamp <= later < stamp + DAY_TICKS
    ensures !CanClaim(Claimed(d, stamp, bonus), later)
  {
  }

  /** `/daily` for user `uid`. The bonus is drawn first; the user's record is
      fetched (a new user gets a default record, saved); if a day has not
      passed since the last claim at clock reading `now`, nothing more
      happens; otherwise the bonus is added, `lastDaily` becomes the second
      clock reading `stamp`, and the record is stored and the whole ledger
      saved. The only effect on disk is that save of the whole ledger. */
  method Daily(cacher: GameDataCacher, uid: U64, now: Ticks, stamp: Ticks, draw: int,
               writeFails: bool)
    returns (reply: DailyReply)
    requires 0 <= draw < RANDOM_BOUND
    modifies cacher, cacher.cache
    ensures var before := WithUser(old(cacher.cachedData), uid);
      if CanClaim(before[uid], now) then
        && reply == Granted(Bonus(draw))
        && cacher.cachedData == Modified(old(cacher.cachedData), uid,
                                         Claimed(before[uid], stamp, Bonus(draw)))
        && (!writeFails ==> cacher.Persisted())
      else
        && reply == TooEarly(DAY_TICKS - (now - before[uid].lastDaily))
        && cacher.cachedData == before
        && (uid in old(cacher.cachedData) ==> cacher.cache.State() == old(cacher.cache.State()))
        && (uid !in old(cacher.cachedData) && !writeFails ==> cacher.Persisted())
    ensures !(uid in old(cacher.cachedData) && reply.TooEarly?) ==>
      cacher.cache.State() == Caching.Save(old(cacher.cache.State()), cacher.cache.cacheDirectory,
                                           CACHE_NAME, cacher.cachedData, writeFails)
  {
    var bonus := draw % (MAX_NUMBER - MIN_NUMBER) + MIN_NUMBER;
    var userData := cacher.GetUserGameData(uid, writeFails);
    var elapsed := now - userData.lastDaily;
    if elapsed < DAY_TICKS {
      return TooEarly(DAY_TICKS - elapsed);
    }
    userData := userData.(money := WrapAdd(userData.money, bonus), lastDaily := stamp);
    cacher.ModifyUserData(uid, userData, writeFails);
    reply := Granted(bonus);
  }

  /** `/money` for user `uid`: the user's balance. Only a new user's default
      record is stored (and saved); a known user's ledger and file are left
      as they were. */
  method Money(cacher: GameDataCacher, uid: U64, writeFails: bool) returns (balance: U64)
    modifies cacher, cacher.cache
    ensures cacher.cachedData == WithUser(old(cacher.cachedData), uid)
    ensures balance == cacher.cachedData[uid].money
    ensures uid in old(cacher.cachedData) ==> cacher.cache.State() == old(cacher.cache.State())
    ensures uid !in old(cacher.cachedData) ==> balance == 0
    ensures uid !in old(cacher.cachedData) ==>
      cacher.cache.State() == Caching.Save(old(cacher.cache.State()), cacher.cache.cacheDirectory,
                                           CACHE_NAME, cacher.cachedData, writeFails)
  {
    var userData := cacher.GetUserGameData(uid, writeFails);
    balance := userData.money;
  }
}
