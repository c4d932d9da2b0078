/**
 * The slash commands that switch automatic generation on and off in a channel
 * and set the interval between generations, as transitions on the
 * `enabled_guilds` table, together with the reply each one sends.
 */
module Commands {
  import opened Base
  import opened Text
  import opened EnabledGuilds

  datatype Reply =
    | AlreadyEnabled
    | Enabled
    | Disabled
    | AlreadyDisabled
    | IntervalSet(interval: Option<int>)
    | IntervalRefused

  /** `map_or_else(|| "random", to_string)` of the interval argument. */
  function IntervalText(iv: Option<int>): string {
    match iv
    case None => "random"
    case Some(v) => if v >= 0 then Decimal(v) else "-" + Decimal(-v)
  }

  const ALREADY_ENABLED: string := "Automatic generation is already enabled in this channel"
  const ENABLED: string := "Enabled the automatic generation in this channel"
  const DISABLED: string := "Disabled the automatic generation in this channel"
  const ALREADY_DISABLED: string := "Automatic generation is already disabled in this channel"
  const REFUSED: string := "Cannot change interval because automatic generation is disabled in this channel"
  const SET_PREFIX: string := "The interval between automatic generations is set to "
  const SET_SUFFIX: string := " in this channel"

  /** The message the bot answers a command with. */
  function ReplyText(r: Reply): string {
    match r
    case AlreadyEnabled => ALREADY_ENABLED
    case Enabled => ENABLED
    case Disabled => DISABLED
    case AlreadyDisabled => ALREADY_DISABLED
    case IntervalSet(iv) => SET_PREFIX + IntervalText(iv) + SET_SUFFIX
    case IntervalRefused => REFUSED
  }

  /** An interval the command accepts is written with one or two digits, a missing one with six letters. */
  lemma IntervalTextLength(iv: Option<int>)
    ensures iv.None? ==> |IntervalText(iv)| == 6
    ensures ValidInterval(iv) && iv.Some? ==> 1 <= |IntervalText(iv)| <= 2
  {
    if ValidInterval(iv) && iv.Some? && iv.value >= 10 {
      assert Decimal(iv.value) == Decimal(iv.value / 10) + ['0' + (iv.value % 10) as char];
    }
  }

  /** Different accepted intervals are reported with different words. */
  lemma IntervalTextInjective(a: Option<int>, b: Option<int>)
    requires ValidInterval(a) && ValidInterval(b)
    requires IntervalText(a) == IntervalText(b)
    ensures a == b
  {
    IntervalTextLength(a);
    IntervalTextLength(b);
    if a.Some? && b.Some? {
      DecimalInjective(a.value, b.value);
    }
  }

  /**
   * Every outcome of every command is told apart by the reply alone, as long as the
   * interval is one the command accepts.
   */
  lemma ReplyTextInjective(a: Reply, b: Reply)
    requires a.IntervalSet? ==> ValidInterval(a.interval)
    requires b.IntervalSet? ==> ValidInterval(b.interval)
    requires ReplyText(a) == ReplyText(b)
    ensures a == b
  {
    if a.IntervalSet? {
      IntervalTextLength(a.interval);
    }
    if b.IntervalSet? {
      IntervalTextLength(b.interval);
    }
    if a.IntervalSet? && b.IntervalSet? {
      var s := ReplyText(a);
      var n := |IntervalText(a.interval)|;
      assert IntervalText(a.interval) == s[|SET_PREFIX|..|SET_PREFIX| + n] == IntervalText(b.interval);
      IntervalTextInjective(a.interval, b.interval);
    }
  }

  // ---------------------------------------------------------------------------
  // The commands as functions of the table

  /** `enable_gen`: a new row waiting `draw` messages, unless the channel has one. */
  function Enable(t: Table, key: Key, draw: int): Table {
    if key in t then t else t[key := Row(draw, None)]
  }

  function EnableReply(t: Table, key: Key): Reply {
    if key in t then AlreadyEnabled else Enabled
  }

  /** `disable_gen`: the channel's row is deleted. */
  function Disable(t: Table, key: Key): Table {
    t - {key}
  }

  function DisableReply(t: Table, key: Key): Reply {
    if key in t then Disabled else AlreadyDisabled
  }

  /** `interval`: an existing row gets the interval and waits at most that many messages. */
  function SetInterval(t: Table, key: Key, iv: Option<int>): Table {
    if key in t then t[key := Row(Least(iv, t[key].msgsUntilGen), iv)] else t
  }

  function IntervalReply(t: Table, key: Key, iv: Option<int>): Reply {
    if key in t then IntervalSet(iv) else IntervalRefused
  }

  // ---------------------------------------------------------------------------
  // The commands against the database

  /** `enable_gen`: check for the row, then insert one with a count drawn from 5..=50. */
  method EnableGen(db: Database, key: Key) returns (reply: Reply, ghost draw: int)
    modifies db
    ensures IsDraw(draw)
    ensures reply == EnableReply(old(db.enabled), key)
    ensures db.enabled == Enable(old(db.enabled), key, draw)
  {
    draw := DRAW_MIN;
    var present := key in db.enabled;
    if present {
      reply := AlreadyEnabled;
      return;
    }
    var count :| DRAW_MIN <= count <= DRAW_MAX;
    draw := count;
    db.enabled := db.enabled[key := Row(count, None)];
    reply := Enabled;
  }

  /** `disable_gen`: delete the row and report by the number of rows deleted. */
  method DisableGen(db: Database, key: Key) returns (reply: Reply)
    modifies db
    ensures reply == DisableReply(old(db.enabled), key)
    ensures db.enabled == Disable(old(db.enabled), key)
  {
    var deleted := if key in db.enabled then 1 else 0;
    db.enabled := db.enabled - {key};
    reply := if deleted > 0 then Disabled else AlreadyDisabled;
  }

  /** `interval`, whose argument the command framework keeps within 5..=50. */
  method Interval(db: Database, key: Key, iv: Option<int>) returns (reply: Reply)
    requires ValidInterval(iv)
    modifies db
    ensures reply == IntervalReply(old(db.enabled), key, iv)
    ensures db.enabled == SetInterval(old(db.enabled), key, iv)
  {
    var updated := 0;
    if key in db.enabled {
      var row := db.enabled[key];
      db.enabled := db.enabled[key := Row(Least(iv, row.msgsUntilGen), iv)];
      updated := 1;
    }
    reply := if updated > 0 then IntervalSet(iv) else IntervalRefused;
  }

  // ---------------------------------------------------------------------------
  // What the commands promise

  /** On an enabled channel `enable_gen` says so and changes nothing. */
  lemma EnableWhenEnabled(t: Table, key: Key, draw: int)
    requires key in t
    ensures Enable(t, key, draw) == t
    ensures EnableReply(t, key) == AlreadyEnabled
  {
  }

  /** On a new channel `enable_gen` adds exactly one row, waiting 5..=50 messages, without interval. */
  lemma EnableWhenNew(t: Table, key: Key, draw: int)
    requires key !in t && IsDraw(draw)
    ensures var u := Enable(t, key, draw);
      && u.Keys == t.Keys + {key}
      && |u| == |t| + 1
      && u[key] == Row(draw, None) && IsDraw(u[key].msgsUntilGen)
    ensures EnableReply(t, key) == Enabled
  {
    var u := Enable(t, key, draw);
    assert u.Keys == t.Keys + {key};
  }

  /** `disable_gen` leaves no row for the channel and reports "disabled" exactly when there was one. */
  lemma DisableReports(t: Table, key: Key)
    ensures key !in Disable(t, key)
    ensures DisableReply(t, key) == Disabled <==> key in t
    ensures key !in t ==> Disable(t, key) == t
  {
  }

  /** `interval` on a channel without a row refuses and changes nothing. */
  lemma IntervalWhenDisabled(t: Table, key: Key, iv: Option<int>)
    requires key !in t
    ensures SetInterval(t, key, iv) == t
    ensures IntervalReply(t, key, iv) == IntervalRefused
  {
  }

  /**
   * `interval` on an enabled channel stores the interval and never lengthens the wait:
   * with an interval the wait is the smaller of the two, without one it stays as it was.
   */
  lemma IntervalWhenEnabled(t: Table, key: Key, iv: Option<int>)
    requires key in t
    ensures var u := SetInterval(t, key, iv);
      && key in u && u[key].interval == iv
      && (iv.None? ==> u[key].msgsUntilGen == t[key].msgsUntilGen)
      && (iv.Some? ==> u[key].msgsUntilGen == if iv.value < t[key].msgsUntilGen then iv.value else t[key].msgsUntilGen)
    ensures IntervalReply(t, key, iv) == IntervalSet(iv)
  {
  }

  /** Every command touches only the invoking channel's row. */
  lemma CommandsTouchOneRow(t: Table, key: Key, draw: int, iv: Option<int>)
    ensures OthersUnchanged(t, Enable(t, key, draw), key)
    ensures OthersUnchanged(t, Disable(t, key), key)
    ensures OthersUnchanged(t, SetInterval(t, key, iv), key)
  {
  }

  /** Every command keeps each row waiting 1..=50 messages with an interval in 5..=50 or none. */
  lemma CommandsKeepInRange(t: Table, key: Key, draw: int, iv: Option<int>)
    requires InRange(t) && IsDraw(draw) && ValidInterval(iv)
    ensures InRange(Enable(t, key, draw))
    ensures InRange(Disable(t, key))
    ensures InRange(SetInterval(t, key, iv))
  {
  }

  /** Enabling a new channel and disabling it again restores the table. */
  lemma EnableDisableRoundTrip(t: Table, key: Key, draw: int)
    requires key !in t
    ensures Disable(Enable(t, key, draw), key) == t
  {
    assert Disable(Enable(t, key, draw), key).Keys == t.Keys;
  }

  /** Repeating a command changes nothing more, whatever the second draw. */
  lemma CommandsIdempotent(t: Table, key: Key, draw: int, draw': int, iv: Option<int>)
    ensures Enable(Enable(t, key, draw), key, draw') == Enable(t, key, draw)
    ensures Disable(Disable(t, key), key) == Disable(t, key)
    ensures SetInterval(SetInterval(t, key, iv), key, iv) == SetInterval(t, key, iv)
  {
  }
}
