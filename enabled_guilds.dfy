/**
 * The `enabled_guilds` table: one row per (guild, channel) in which automatic
 * generation is enabled, holding how many more messages to wait before the
 * next generation and an optional fixed interval between generations.
 */
module EnabledGuilds {
  import opened Base

  /** (guild id, channel id), the table's key. */
  type Key = (int, int)

  datatype Row = Row(msgsUntilGen: int, interval: Option<int>)

  type Table = map<Key, Row>

  /** The bounds of the uniform draw `5..=50` the bot samples a waiting count from. */
  const DRAW_MIN: int := 5
  const DRAW_MAX: int := 50

  /** The smallest value of a `smallint` column. */
  const SMALLINT_MIN: int := -32768

  predicate IsDraw(v: int) {
    DRAW_MIN <= v <= DRAW_MAX
  }

  /** An interval the `interval` command accepts: none, or a value in 5..=50. */
  predicate ValidInterval(iv: Option<int>) {
    iv.Some? ==> IsDraw(iv.value)
  }

  predicate RowInRange(row: Row) {
    1 <= row.msgsUntilGen <= DRAW_MAX && ValidInterval(row.interval)
  }

  /** The invariant the commands and the message counter keep: every row waits 1..=50 messages. */
  predicate InRange(t: Table) {
    forall k :: k in t ==> RowInRange(t[k])
  }

  /** SQL `least(a, b)` with `b` never NULL: NULL arguments are ignored. */
  function Least(a: Option<int>, b: int): (r: int)
    ensures r <= b && (a.Some? ==> r <= a.value)
    ensures r == b || (a.Some? && r == a.value)
  {
    if a.Some? && a.value < b then a.value else b
  }

  /** Rows other than `key` are the same in `t` and `u`. */
  ghost predicate OthersUnchanged(t: Table, u: Table, key: Key) {
    forall k :: k != key ==> (k in t <==> k in u) && (k in t ==> t[k] == u[k])
  }

  /** The database the bot talks to, reduced to its `enabled_guilds` table. */
  class Database {
    var enabled: Table

    constructor (enabled: Table)
      ensures this.enabled == enabled
    {
      this.enabled := enabled;
    }
  }
}
