/**
 * The `users` table that the cog reads and writes (cogs/bot_setup.py:18-29):
 * one credit balance per user id.
 */
module Ledger {

  type Credits = map<int, int>

  /** `load_credits`: the stored balance, or 0 for a user with no row. */
  function Balance(ledger: Credits, user: int): (r: int)
    ensures user !in ledger ==> r == 0
  {
    if user in ledger then ledger[user] else 0
  }

  /** `update_credits`: INSERT OR REPLACE of one row. */
  function Store(ledger: Credits, user: int, amount: int): (r: Credits)
    ensures r.Keys == ledger.Keys + {user}
    ensures Balance(r, user) == amount
    ensures forall other :: other != user ==> Balance(r, other) == Balance(ledger, other)
  {
    ledger[user := amount]
  }

  /** Every stored balance is non-negative. */
  predicate NonNegative(ledger: Credits)
  {
    forall user :: user in ledger ==> ledger[user] >= 0
  }

  /** Writing a balance back twice is the same as writing it once, and writing
      back the balance just read leaves every read unchanged. */
  lemma StoreAbsorbs(ledger: Credits, user: int, a: int, b: int)
    ensures Store(Store(ledger, user, a), user, b) == Store(ledger, user, b)
    ensures forall other :: Balance(Store(ledger, user, Balance(ledger, user)), other) == Balance(ledger, other)
  {
  }
}
