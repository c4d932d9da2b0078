/**
 * What the bot does with every chat message: feed it to the text generator,
 * answer mentions with a continuation of the message, and count messages down
 * in channels with automatic generation, posting a continuation when the
 * count runs out.
 */
module EventHandler {
  import opened Base
  import opened Text
  import opened EnabledGuilds

  // ---------------------------------------------------------------------------
  // The message counter

  /** The decrement left the `smallint` range, so the database rejected the update. */
  datatype TickError = CounterOutOfRange

  datatype Tick = Tick(table: Table, fire: bool)

  /**
   * `update_gen_interval` for one channel: without a row nothing happens; otherwise the
   * count drops by one and, once it is not positive, is reset to the row's interval or
   * to `draw`. Generation is due exactly when the count dropped to zero.
   */
  function Ticked(t: Table, key: Key, draw: int): Result<Tick, TickError> {
    if key !in t then Success(Tick(t, false))
    else
      var count := t[key].msgsUntilGen - 1;
      if count < SMALLINT_MIN then Failure(CounterOutOfRange)
      else
        var next := if count <= 0 then t[key].interval.GetOr(draw) else count;
        Success(Tick(t[key := t[key].(msgsUntilGen := next)], count == 0))
  }

  /** `update_gen_interval`: decrement and read back the row, then reset it if it ran out. */
  method UpdateGenInterval(db: Database, key: Key) returns (r: Result<bool, TickError>, ghost draw: int)
    modifies db
    ensures IsDraw(draw)
    ensures var tick := Ticked(old(db.enabled), key, draw);
      match tick
      case Failure(e) => r == Failure(e) && db.enabled == old(db.enabled)
      case Success(s) => r == Success(s.fire) && db.enabled == s.table
  {
    draw := DRAW_MIN;
    if key !in db.enabled {
      return Success(false), draw;
    }
    var count := db.enabled[key].msgsUntilGen - 1;
    if count < SMALLINT_MIN {
      return Failure(CounterOutOfRange), draw;
    }
    db.enabled := db.enabled[key := db.enabled[key].(msgsUntilGen := count)];
    if count <= 0 {
      var interval := db.enabled[key].interval;
      var newCount;
      if interval.Some? {
        newCount := interval.value;
      } else {
        newCount :| DRAW_MIN <= newCount <= DRAW_MAX;
        draw := newCount;
      }
      db.enabled := db.enabled[key := db.enabled[key].(msgsUntilGen := newCount)];
    }
    r := Success(count == 0);
  }

  /** A channel without automatic generation is never due and its table is left alone. */
  lemma TickWhenDisabled(t: Table, key: Key, draw: int)
    requires key !in t
    ensures Ticked(t, key, draw) == Success(Tick(t, false))
  {
  }

  /**
   * On an enabled channel whose count can drop, the tick is due exactly when the count was
   * one, keeps the interval, counts down by one while positive, and otherwise starts over
   * at the interval or, without one, at the draw; no other row changes.
   */
  lemma TickWhenEnabled(t: Table, key: Key, draw: int)
    requires key in t && t[key].msgsUntilGen - 1 >= SMALLINT_MIN
    ensures Ticked(t, key, draw).Success?
    ensures var s := Ticked(t, key, draw).value;
      && (s.fire <==> t[key].msgsUntilGen == 1)
      && key in s.table && s.table[key].interval == t[key].interval
      && (t[key].msgsUntilGen > 1 ==> s.table[key].msgsUntilGen == t[key].msgsUntilGen - 1)
      && (t[key].msgsUntilGen <= 1 && t[key].interval.Some? ==> s.table[key].msgsUntilGen == t[key].interval.value)
      && (t[key].msgsUntilGen <= 1 && t[key].interval.None? ==> s.table[key].msgsUntilGen == draw)
      && OthersUnchanged(t, s.table, key)
  {
  }

  /** Counting messages keeps every row waiting 1..=50 messages, and then never fails. */
  lemma TickKeepsInRange(t: Table, key: Key, draw: int)
    requires InRange(t) && IsDraw(draw)
    ensures Ticked(t, key, draw).Success?
    ensures InRange(Ticked(t, key, draw).value.table)
  {
  }

  datatype Replayed = Replayed(table: Table, fires: seq<bool>)

  /** One tick of the channel `key` per draw, in order, with the draw each one would use. */
  function Replay(t: Table, key: Key, draws: seq<int>): Replayed
    requires InRange(t) && forall i :: 0 <= i < |draws| ==> IsDraw(draws[i])
    decreases |draws|
  {
    if draws == [] then Replayed(t, [])
    else
      TickKeepsInRange(t, key, draws[0]);
      var s := Ticked(t, key, draws[0]).value;
      var rest := Replay(s.table, key, draws[1..]);
      Replayed(rest.table, [s.fire] + rest.fires)
  }

  /**
   * The countdown: a channel waiting `c` messages stays quiet for `c - 1` messages, is due
   * on the `c`-th, and then waits its interval (or the draw of that message) again.
   */
  lemma {:induction false} Countdown(t: Table, key: Key, draws: seq<int>)
    requires InRange(t) && forall i :: 0 <= i < |draws| ==> IsDraw(draws[i])
    requires key in t && |draws| == t[key].msgsUntilGen
    ensures var r := Replay(t, key, draws);
      && r.fires == seq(|draws|, i => i == |draws| - 1)
      && r.table == t[key := t[key].(msgsUntilGen := t[key].interval.GetOr(draws[|draws| - 1]))]
    decreases |draws|
  {
    TickKeepsInRange(t, key, draws[0]);
    var s := Ticked(t, key, draws[0]).value;
    if |draws| > 1 {
      Countdown(s.table, key, draws[1..]);
      var rest := Replay(s.table, key, draws[1..]);
      assert [s.fire] + rest.fires == seq(|draws|, i => i == |draws| - 1);
    } else {
      assert Replay(s.table, key, draws[1..]).fires == [];
    }
  }

  /** With a fixed interval `n`, a channel that just generated is due again after exactly `n` messages. */
  lemma FixedInterval(t: Table, key: Key, draws: seq<int>, n: int)
    requires InRange(t) && forall i :: 0 <= i < |draws| ==> IsDraw(draws[i])
    requires key in t && |draws| == t[key].msgsUntilGen && t[key].interval == Some(n)
    ensures var r := Replay(t, key, draws);
      && key in r.table && r.table[key] == Row(n, Some(n))
  {
    Countdown(t, key, draws);
  }

  // ---------------------------------------------------------------------------
  // The text generator

  datatype GenError = Unreachable | Refused

  /** The remote text generator, reduced to what the bot sends it and what it answers. */
  class MarkovChain {
    /** Texts handed over as training input. */
    var inputs: seq<string>
    /** The start word of every generation asked for, in order. */
    var requests: seq<Option<string>>
    /** The answers the service will give to the next generations. */
    var answers: seq<Result<string, GenError>>

    constructor (answers: seq<Result<string, GenError>>)
      ensures inputs == [] && requests == [] && this.answers == answers
    {
      inputs := [];
      requests := [];
      this.answers := answers;
    }

    method Input(text: string)
      modifies this
      ensures inputs == old(inputs) + [text]
      ensures requests == old(requests) && answers == old(answers)
    {
      inputs := inputs + [text];
    }

    method Generate(start: Option<string>) returns (r: Result<string, GenError>)
      modifies this
      ensures requests == old(requests) + [start]
      ensures r == Head(old(answers)) && answers == Rest(old(answers))
      ensures inputs == old(inputs)
    {
      requests := requests + [start];
      r := Head(answers);
      answers := Rest(answers);
    }
  }

  /** The next answer of the generator; without one left, it cannot be reached. */
  function Head(answers: seq<Result<string, GenError>>): Result<string, GenError> {
    if answers == [] then Failure(Unreachable) else answers[0]
  }

  function Rest(answers: seq<Result<string, GenError>>): seq<Result<string, GenError>> {
    if answers == [] then [] else answers[1..]
  }

  // ---------------------------------------------------------------------------
  // Continuing a message

  /** The seed of a continuation: the message's last space-separated word, if it is valid content. */
  function StartWord(content: string, valid: string -> bool): Option<string> {
    var last := AfterLast(content, ' ');
    if valid(last) then Some(last) else None
  }

  /** The generated text without its first word (the seed echoed back). */
  function DropFirstWord(text: string): string {
    AfterFirst(text, ' ')
  }

  /** Whether the first answer leaves nothing once its first word is dropped. */
  predicate Regenerates(first: Result<string, GenError>) {
    first.Success? && DropFirstWord(first.value) == []
  }

  /** What `continue_message` produces from the generator's first and (if asked) second answer. */
  function Continued(first: Result<string, GenError>, second: Result<string, GenError>): Result<string, GenError> {
    if Regenerates(first) then second
    else if first.Success? then Success(DropFirstWord(first.value))
    else first
  }

  /** The generations `continue_message` asks for, given the answers queued at the generator. */
  function ContinueRequests(answers: seq<Result<string, GenError>>, content: string, valid: string -> bool): seq<Option<string>> {
    [StartWord(content, valid)] + (if Regenerates(Head(answers)) then [None] else [])
  }

  /** The answers still queued once `continue_message` is done. */
  function ContinueRest(answers: seq<Result<string, GenError>>): seq<Result<string, GenError>> {
    if Regenerates(Head(answers)) then Rest(Rest(answers)) else Rest(answers)
  }

  /** What `continue_message` returns, given the answers queued at the generator. */
  function ContinueResult(answers: seq<Result<string, GenError>>): Result<string, GenError> {
    Continued(Head(answers), Head(Rest(answers)))
  }

  /** `continue_message`: seed with the last word, drop the first word, and retry unseeded if nothing is left. */
  method ContinueMessage(chain: MarkovChain, content: string, valid: string -> bool) returns (r: Result<string, GenError>)
    modifies chain
    ensures chain.requests == old(chain.requests) + ContinueRequests(old(chain.answers), content, valid)
    ensures chain.answers == ContinueRest(old(chain.answers))
    ensures r == ContinueResult(old(chain.answers))
    ensures chain.inputs == old(chain.inputs)
  {
    var last := AfterLast(content, ' ');
    var start := if valid(last) then Some(last) else None;
    var text := chain.Generate(start);
    if text.Success? {
      text := Success(AfterFirst(text.value, ' '));
    }
    if text == Success([]) {
      text := chain.Generate(None);
    }
    r := text;
  }

  /** The seed is the word after the message's last space, when the generator accepts it. */
  lemma StartWordIsLastWord(front: string, word: string, valid: string -> bool)
    requires ' ' !in word
    ensures StartWord(front + " " + word, valid) == if valid(word) then Some(word) else None
  {
    SplitLastJoin(front, ' ', word);
  }

  /** A message without spaces is its own seed, when valid. */
  lemma StartWordOfOneWord(word: string, valid: string -> bool)
    requires ' ' !in word
    ensures StartWord(word, valid) == if valid(word) then Some(word) else None
  {
  }

  /** The generated text loses exactly its first word and the space after it. */
  lemma DropFirstWordOfJoin(word: string, rest: string)
    requires ' ' !in word
    ensures DropFirstWord(word + " " + rest) == rest
  {
    SplitFirstJoin(word, ' ', rest);
  }

  /** A generated text of a single word leaves nothing, so generation starts over unseeded. */
  lemma SingleWordRegenerates(word: string, second: Result<string, GenError>)
    requires ' ' !in word
    ensures Regenerates(Success(word))
    ensures Continued(Success(word), second) == second
  {
  }

  /**
   * A continuation is empty only if the unseeded retry came back empty too; when the first
   * answer has text after its first word, that text is the continuation.
   */
  lemma ContinuedNonEmpty(first: Result<string, GenError>, second: Result<string, GenError>)
    ensures Continued(first, second) == Success([]) ==> Regenerates(first) && second == Success([])
    ensures first.Success? && DropFirstWord(first.value) != [] ==> Continued(first, second) == Success(DropFirstWord(first.value))
    ensures first.Failure? ==> Continued(first, second) == first
  {
  }

  // ---------------------------------------------------------------------------
  // Handling a message

  datatype Message = Message(authorId: int, authorIsBot: bool, guild: Option<int>, channel: int,
                             content: string, mentionsMe: bool)

  /** The failures that stop the handler with a panic. */
  datatype Panic = TickFailed(tick: TickError) | GenerationFailed(gen: GenError)

  /**
   * What the bot wrote back: the answer to a mention, sent first, and the outcome of
   * counting the message: a text posted because the count ran out, or the panic that
   * ended the handler after the answer had gone out.
   */
  datatype Outcome = Outcome(mentionAnswer: Option<string>, posted: Result<Option<string>, Panic>)

  /** Whether the handler answers a message as a mention: it mentions the bot, and is not the bot's own. */
  predicate Answers(msg: Message, selfId: int) {
    msg.authorId != selfId && msg.mentionsMe
  }

  /** The reply to a mention: the continuation, or nothing when generation failed. */
  function MentionAnswer(text: Result<string, GenError>): Option<string> {
    if text.Success? then Some(text.value) else None
  }

  /** Whether the message makes its channel due: it was sent in a guild and the tick fires. */
  function Due(t: Table, msg: Message, draw: int): bool {
    msg.guild.Some? &&
    var tick := Ticked(t, (msg.guild.value, msg.channel), draw);
    tick.Success? && tick.value.fire
  }

  /** The table once the message is counted: unchanged outside a guild or when the tick fails. */
  function Counted(t: Table, msg: Message, draw: int): Table {
    if msg.guild.None? then t
    else
      match Ticked(t, (msg.guild.value, msg.channel), draw)
      case Failure(_) => t
      case Success(s) => s.table
  }

  /**
   * What `generate_from_interval` ends with: nothing outside a guild or while the count runs,
   * a panic when the tick or the generation fails, and otherwise the continuation posted.
   */
  function Posted(t: Table, msg: Message, draw: int, answers: seq<Result<string, GenError>>): Result<Option<string>, Panic> {
    if msg.guild.None? then Success(None)
    else
      match Ticked(t, (msg.guild.value, msg.channel), draw)
      case Failure(e) => Failure(TickFailed(e))
      case Success(s) =>
        if !s.fire then Success(None)
        else
          var text := ContinueResult(answers);
          if text.Success? then Success(Some(text.value)) else Failure(GenerationFailed(text.error))
  }

  /**
   * A text is posted exactly when the channel is due and the continuation succeeds; the
   * tick never panics on a table in range, and without a guild nothing is counted.
   */
  lemma PostedWhenDue(t: Table, msg: Message, draw: int, answers: seq<Result<string, GenError>>)
    ensures var p := Posted(t, msg, draw, answers);
      (p.Success? && p.value.Some?) <==> Due(t, msg, draw) && ContinueResult(answers).Success?
    ensures Posted(t, msg, draw, answers).Success? && Posted(t, msg, draw, answers).value.Some? ==>
      Posted(t, msg, draw, answers).value.value == ContinueResult(answers).value
    ensures InRange(t) && IsDraw(draw) ==>
      Posted(t, msg, draw, answers) != Failure(TickFailed(CounterOutOfRange)) && InRange(Counted(t, msg, draw))
    ensures msg.guild.None? ==> Posted(t, msg, draw, answers) == Success(None) && Counted(t, msg, draw) == t
  {
    if msg.guild.Some? && InRange(t) && IsDraw(draw) {
      TickKeepsInRange(t, (msg.guild.value, msg.channel), draw);
    }
  }

  /** `answer_to_mention`: only a message that mentions the bot is answered; a failed generation is only logged. */
  method AnswerToMention(chain: MarkovChain, msg: Message, valid: string -> bool) returns (answer: Option<string>)
    modifies chain
    ensures answer == if msg.mentionsMe then MentionAnswer(ContinueResult(old(chain.answers))) else None
    ensures chain.requests == old(chain.requests) +
      (if msg.mentionsMe then ContinueRequests(old(chain.answers), msg.content, valid) else [])
    ensures chain.answers == if msg.mentionsMe then ContinueRest(old(chain.answers)) else old(chain.answers)
    ensures chain.inputs == old(chain.inputs)
  {
    if !msg.mentionsMe {
      return None;
    }
    var text := ContinueMessage(chain, msg.content, valid);
    answer := if text.Success? then Some(text.value) else None;
  }

  /** `generate_from_interval`: count the message in its channel and, when due, post a continuation. */
  method GenerateFromInterval(db: Database, chain: MarkovChain, msg: Message, valid: string -> bool)
    returns (r: Result<Option<string>, Panic>, ghost draw: int)
    modifies db, chain
    ensures IsDraw(draw)
    ensures r == Posted(old(db.enabled), msg, draw, old(chain.answers))
    ensures db.enabled == Counted(old(db.enabled), msg, draw)
    ensures chain.requests == old(chain.requests) +
      (if Due(old(db.enabled), msg, draw) then ContinueRequests(old(chain.answers), msg.content, valid) else [])
    ensures chain.answers == if Due(old(db.enabled), msg, draw) then ContinueRest(old(chain.answers)) else old(chain.answers)
    ensures chain.inputs == old(chain.inputs)
  {
    draw := DRAW_MIN;
    if msg.guild.None? {
      return Success(None), draw;
    }
    var due;
    due, draw := UpdateGenInterval(db, (msg.guild.value, msg.channel));
    if due.Failure? {
      return Failure(TickFailed(due.error)), draw;
    }
    if !due.value {
      return Success(None), draw;
    }
    var text := ContinueMessage(chain, msg.content, valid);
    if text.Failure? {
      return Failure(GenerationFailed(text.error)), draw;
    }
    r := Success(Some(text.value));
  }

  /**
   * `Handler::message`: save the text of people (not bots) as training input, answer
   * mentions from anyone but the bot itself, then count the message in its channel.
   * The answer to a mention goes out before the count, so it stands even when counting panics.
   */
  method OnMessage(db: Database, chain: MarkovChain, msg: Message, selfId: int, valid: string -> bool)
    returns (r: Outcome, ghost draw: int)
    modifies db, chain
    ensures IsDraw(draw)
    ensures chain.inputs == old(chain.inputs) + (if !msg.authorIsBot && valid(msg.content) then [msg.content] else [])
    ensures r.mentionAnswer == if Answers(msg, selfId) then MentionAnswer(ContinueResult(old(chain.answers))) else None
    ensures db.enabled == Counted(old(db.enabled), msg, draw)
    ensures var queued := if Answers(msg, selfId) then ContinueRest(old(chain.answers)) else old(chain.answers);
      && r.posted == Posted(old(db.enabled), msg, draw, queued)
      && chain.requests == old(chain.requests)
           + (if Answers(msg, selfId) then ContinueRequests(old(chain.answers), msg.content, valid) else [])
           + (if Due(old(db.enabled), msg, draw) then ContinueRequests(queued, msg.content, valid) else [])
      && chain.answers == if Due(old(db.enabled), msg, draw) then ContinueRest(queued) else queued
  {
    ghost var answers0, requests0, table0 := chain.answers, chain.requests, db.enabled;
    if !msg.authorIsBot && valid(msg.content) {
      chain.Input(msg.content);
    }
    var answer := None;
    if msg.authorId != selfId {
      answer := AnswerToMention(chain, msg, valid);
    }
    ghost var queued, requests1 := chain.answers, chain.requests;
    assert queued == if Answers(msg, selfId) then ContinueRest(answers0) else answers0;
    assert requests1 == requests0 + (if Answers(msg, selfId) then ContinueRequests(answers0, msg.content, valid) else []);
    var posted;
    posted, draw := GenerateFromInterval(db, chain, msg, valid);
    r := Outcome(answer, posted);
  }
}
