/**
 * The websocket chat relay: a message that starts with `exchange` is a command whose
 * report goes back to the sender only; any other message is chat, forwarded to every
 * other connected client. The transport, the HTTP calls and the clock are parameters:
 * a session's inbound messages are a sequence, a send is an append to `Server.sent`,
 * `dateOf(i)` is the formatted date `i` days before now and `provider(date)` is the
 * answer of the rate API for that date.
 */
module Relay {
  import opened Wrappers
  import opened Errors
  import opened Text
  import opened Rates

  /** How `handle_client` treats one inbound message. */
  datatype Route = Command(params: seq<string>) | Chat(text: string)

  const CommandWord := "exchange"

  /** The currencies every `exchange` report lists, in this order. */
  const Currencies := ["USD", "EUR"]

  /** `message.startswith("exchange")`: a plain prefix test, no trimming, no word boundary. */
  predicate IsCommand(message: string)
  {
    CommandWord <= message
  }

  /** Classification of a message, with the command's parameters `message.split()[1:]`. */
  function RouteOf(message: string): (r: Route)
    ensures r.Command? <==> |message| >= 8 && message[..8] == "exchange"
    ensures r.Chat? ==> r.text == message
    ensures r.Command? ==> |Split(message)| >= 1 && "exchange" <= Split(message)[0]
    ensures r.Command? ==> r.params == Split(message)[1..]
  {
    if IsCommand(message) then
      CommandTokenComesFirst(message);
      Command(Split(message)[1..])
    else Chat(message)
  }

  /** A command's first token is the command word itself (possibly with more letters glued on). */
  lemma CommandTokenComesFirst(message: string)
    requires IsCommand(message)
    ensures |Split(message)| >= 1 && CommandWord <= Split(message)[0]
  {
    assert message[..8] == CommandWord;
    assert NoSpace(message[..8]);
    TokenLengthCoversPrefix(message, 8);
    assert !IsSpace(message[0]);
    var n := TokenLength(message);
    assert Split(message)[0] == message[..n];
    assert message[..n][..8] == message[..8];
  }

  /** The day count: 1 without parameters, otherwise the first parameter read as an integer. */
  function DayCount(params: seq<string>): (r: Result<int, Error>)
    ensures params == [] ==> r == Ok(1)
    ensures params != [] ==> (r.Ok? <==> ParseInt(params[0]).Some?)
    ensures params != [] && r.Ok? ==> r.value == ParseInt(params[0]).value
    ensures params != [] && r.Err? ==> r.error == InvalidLiteral(params[0])
  {
    if |params| == 0 then Ok(1)
    else match ParseInt(params[0])
      case Some(n) => Ok(n)
      case None => Err(InvalidLiteral(params[0]))
  }

  /** A rendered integer as the first parameter is read back as that day count. */
  lemma DayCountOfNumeral(n: int, rest: seq<string>)
    ensures DayCount([ShowInt(n)] + rest) == Ok(n)
  {
    ParseShowInt(n);
  }

  /** The relay's line for one currency. */
  function RelayLine(cur: string, entries: seq<RateEntry>): string
  {
    match FirstMatch(entries, cur)
    case Some(i) => RateLine(cur, entries[i])
    case None => "No data for " + cur
  }

  /** The relay's line renders the first entry of the currency, or `No data for <cur>`. */
  lemma RelayLineUsesFirstMatch(cur: string, entries: seq<RateEntry>)
    ensures (forall j :: 0 <= j < |entries| ==> entries[j].currency != cur) ==> RelayLine(cur, entries) == "No data for " + cur
    ensures forall i :: 0 <= i < |entries| && entries[i].currency == cur
                        && (forall j :: 0 <= j < i ==> entries[j].currency != cur)
                        ==> RelayLine(cur, entries) == RateLine(cur, entries[i])
  {
    FirstMatchIsTheFirst(entries, cur);
  }

  /** A rate line is longer than the no-data line of the same currency, so they never coincide. */
  lemma RelayLinesDiffer(cur: string, e: RateEntry)
    ensures RateLine(cur, e) != "No data for " + cur
  {
    assert |RateLine(cur, e)| >= |cur| + 16;
  }

  /** The lines of one fetched day, one per entry of `Currencies`, in that order. */
  function RelayLines(entries: seq<RateEntry>): seq<string>
  {
    seq(|Currencies|, k requires 0 <= k < |Currencies| => RelayLine(Currencies[k], entries))
  }

  /**
   * One date's block of the report: the failure line for a failed query, KeyError
   * (`data['exchangeRate']`) for a fetched body without an `exchangeRate` key, and
   * otherwise the date line followed by the currency lines joined by newlines.
   */
  function DayBlock(date: string, outcome: FetchOutcome): Result<string, Error>
  {
    match outcome
    case Failed => Ok("Failed to fetch data for " + date)
    case Fetched(sheet) =>
      if sheet.exchangeRate.None? then Err(MissingKey("exchangeRate"))
      else Ok("Date: " + date + "\n" + Join("\n", RelayLines(sheet.exchangeRate.value)))
  }

  /**
   * A failed query gives its failure line, a fetched body fails exactly when its
   * `exchangeRate` key is missing, and otherwise the block is the date line, the USD
   * line and the EUR line, separated by newlines.
   */
  lemma DayBlockMeaning(date: string, outcome: FetchOutcome)
    ensures outcome.Failed? ==> DayBlock(date, outcome) == Ok("Failed to fetch data for " + date)
    ensures outcome.Fetched? ==> (DayBlock(date, outcome).Err? <==> outcome.sheet.exchangeRate.None?)
    ensures DayBlock(date, outcome).Err? ==> DayBlock(date, outcome).error == MissingKey("exchangeRate")
    ensures outcome.Fetched? && DayBlock(date, outcome).Ok? ==>
      DayBlock(date, outcome).value
        == "Date: " + date + "\n" + RelayLine("USD", Entries(outcome.sheet)) + "\n" + RelayLine("EUR", Entries(outcome.sheet))
  {
    if outcome.Fetched? && outcome.sheet.exchangeRate.Some? {
      var lines := RelayLines(outcome.sheet.exchangeRate.value);
      assert lines == [lines[0], lines[1]];
      assert Join("\n", lines) == lines[0] + "\n" + lines[1];
    }
  }

  /** The blocks for offsets `0 .. n-1`, today first; any KeyError makes the whole list fail. */
  function DayBlocks(n: nat, dateOf: nat -> string, provider: string -> FetchOutcome): Result<seq<string>, Error>
  {
    if n == 0 then Ok([])
    else match DayBlocks(n - 1, dateOf, provider)
      case Err(e) => Err(e)
      case Ok(blocks) =>
        match DayBlock(dateOf(n - 1), provider(dateOf(n - 1)))
        case Err(e) => Err(e)
        case Ok(b) => Ok(blocks + [b])
  }

  /**
   * The list of blocks exists exactly when every day's block does; it then holds the
   * blocks of offsets `0 .. n-1` in that order, and otherwise the failure is KeyError.
   */
  lemma {:induction false} DayBlocksMeaning(n: nat, dateOf: nat -> string, provider: string -> FetchOutcome)
    ensures DayBlocks(n, dateOf, provider).Ok? <==> forall i :: 0 <= i < n ==> DayBlock(dateOf(i), provider(dateOf(i))).Ok?
    ensures DayBlocks(n, dateOf, provider).Ok? ==> |DayBlocks(n, dateOf, provider).value| == n
    ensures DayBlocks(n, dateOf, provider).Ok? ==>
      forall i :: 0 <= i < n ==> DayBlocks(n, dateOf, provider).value[i] == DayBlock(dateOf(i), provider(dateOf(i))).value
    ensures DayBlocks(n, dateOf, provider).Err? ==> DayBlocks(n, dateOf, provider).error == MissingKey("exchangeRate")
  {
    if n > 0 {
      DayBlocksMeaning(n - 1, dateOf, provider);
    }
  }

  /** What `exchange_command(params)` returns, or the exception it raises. */
  function Report(params: seq<string>, dateOf: nat -> string, provider: string -> FetchOutcome): Result<string, Error>
  {
    match DayCount(params)
    case Err(e) => Err(e)
    case Ok(days) =>
      match DayBlocks(Clamp(days), dateOf, provider)
      case Err(e) => Err(e)
      case Ok(blocks) => Ok(Join("\n\n", blocks))
  }

  /**
   * `exchange_command`: one block per offset in `range(days)`, built by appending to
   * `results`, then joined with a blank line between consecutive blocks.
   */
  method ExchangeCommand(params: seq<string>, dateOf: nat -> string, provider: string -> FetchOutcome)
    returns (r: Result<string, Error>)
    ensures r == Report(params, dateOf, provider)
  {
    var count := DayCount(params);
    if count.Err? {
      return Err(count.error);
    }
    var days := count.value;
    var results: seq<string> := [];
    var i := 0;
    while i < days
      invariant 0 <= i == |results| <= Clamp(days)
      invariant DayBlocks(i, dateOf, provider) == Ok(results)
    {
      var date := dateOf(i);
      var outcome := provider(date);
      var block: string;
      if outcome.Fetched? {
        if outcome.sheet.exchangeRate.None? {
          assert DayBlock(dateOf(i), provider(dateOf(i))).Err?;
          DayBlocksMeaning(Clamp(days), dateOf, provider);
          return Err(MissingKey("exchangeRate"));
        }
        var rates := DayRates(outcome.sheet.exchangeRate.value);
        block := "Date: " + date + "\n" + Join("\n", rates);
      } else {
        block := "Failed to fetch data for " + date;
      }
      assert DayBlock(date, outcome) == Ok(block);
      DayBlocksStep(i, dateOf, provider);
      results := results + [block];
      i := i + 1;
    }
    r := Ok(Join("\n\n", results));
  }

  lemma DayBlocksStep(n: nat, dateOf: nat -> string, provider: string -> FetchOutcome)
    requires DayBlocks(n, dateOf, provider).Ok? && DayBlock(dateOf(n), provider(dateOf(n))).Ok?
    ensures DayBlocks(n + 1, dateOf, provider) == Ok(DayBlocks(n, dateOf, provider).value + [DayBlock(dateOf(n), provider(dateOf(n))).value])
  {
  }

  /** The inner loop of `exchange_command`: one line per entry of `Currencies`, in order. */
  method DayRates(entries: seq<RateEntry>) returns (rates: seq<string>)
    ensures rates == RelayLines(entries)
  {
    rates := [];
    for j := 0 to |Currencies|
      invariant rates == RelayLines(entries)[..j]
    {
      rates := rates + [RelayLine(Currencies[j], entries)];
    }
  }

  // ---------------------------------------------------------------------------
  // Properties of the report

  /** No day to report (`range(days)` empty) gives the empty string. */
  lemma ReportEmptyWhenNoDays(params: seq<string>, dateOf: nat -> string, provider: string -> FetchOutcome)
    requires DayCount(params).Ok? && DayCount(params).value <= 0
    ensures Report(params, dateOf, provider) == Ok("")
  {
  }

  /**
   * A report of `days` blocks, in offset order: whenever every fetched body has its
   * `exchangeRate` key, the report is the blocks of offsets 0, 1, ..., days-1 joined by
   * blank lines. A failed day contributes only its failure line and leaves the other
   * days' blocks in place.
   */
  lemma {:induction false} ReportIsJoinedBlocks(days: nat, params: seq<string>, dateOf: nat -> string, provider: string -> FetchOutcome)
    requires DayCount(params) == Ok(days)
    requires forall i :: 0 <= i < days ==> provider(dateOf(i)).Failed? || provider(dateOf(i)).sheet.exchangeRate.Some?
    ensures exists blocks: seq<string> ::
      && |blocks| == days
      && (forall i :: 0 <= i < days ==> blocks[i] == DayBlock(dateOf(i), provider(dateOf(i))).value)
      && (forall i :: 0 <= i < days && provider(dateOf(i)).Failed? ==> blocks[i] == "Failed to fetch data for " + dateOf(i))
      && Report(params, dateOf, provider) == Ok(Join("\n\n", blocks))
  {
    DayBlocksMeaning(days, dateOf, provider);
    var r := DayBlocks(days, dateOf, provider);
    assert r.Ok?;
    var blocks := r.value;
    assert Report(params, dateOf, provider) == Ok(Join("\n\n", blocks));
  }

  /** A missing `exchangeRate` key on any day makes the whole command raise KeyError. */
  lemma MissingKeyFailsCommand(k: nat, days: nat, params: seq<string>, dateOf: nat -> string, provider: string -> FetchOutcome)
    requires DayCount(params) == Ok(days) && k < days
    requires provider(dateOf(k)).Fetched? && provider(dateOf(k)).sheet.exchangeRate.None?
    ensures Report(params, dateOf, provider) == Err(MissingKey("exchangeRate"))
  {
    assert DayBlock(dateOf(k), provider(dateOf(k))).Err?;
    DayBlocksMeaning(days, dateOf, provider);
  }

  /** A non-integer first parameter makes the command raise ValueError, before any fetch. */
  lemma BadDayCountFailsCommand(params: seq<string>, dateOf: nat -> string, provider: string -> FetchOutcome)
    requires params != [] && ParseInt(params[0]).None?
    ensures Report(params, dateOf, provider) == Err(InvalidLiteral(params[0]))
  {
  }

  /**
   * `exchange` without parameters and the same command followed by ` 1` route to
   * commands with the same day count, hence the same report.
   */
  lemma {:induction false} BareCommandIsOneDay(message: string, c: char, dateOf: nat -> string, provider: string -> FetchOutcome)
    requires RouteOf(message) == Command([]) && IsSpace(c)
    ensures RouteOf(message + [c] + "1").Command?
    ensures RouteOf(message + [c] + "1").params == ["1"]
    ensures Report(RouteOf(message + [c] + "1").params, dateOf, provider) == Report([], dateOf, provider)
  {
    var m := message + [c] + "1";
    SplitAtSpace(message, c, "1");
    SplitSingleToken("1");
    assert m[..8] == message[..8];
    assert Split(m) == Split(message) + ["1"];
    assert Split(m)[1..] == ["1"];
    assert ParseInt("1") == Some(1);
  }

  // ---------------------------------------------------------------------------
  // The unused single-currency helper

  /**
   * `fetch_currency_rate(currency)` for today's answer `outcome`: the same line as a
   * report block would hold, `Failed to fetch data` (no date) for a failed query, or
   * KeyError for a body without `exchangeRate`.
   */
  function CurrencyRate(currency: string, outcome: FetchOutcome): (r: Result<string, Error>)
    ensures outcome.Failed? ==> r == Ok("Failed to fetch data")
    ensures outcome.Fetched? ==> (r.Err? <==> outcome.sheet.exchangeRate.None?)
    ensures r.Err? ==> r.error == MissingKey("exchangeRate")
    ensures outcome.Fetched? && r.Ok? ==> r.value == RelayLine(currency, outcome.sheet.exchangeRate.value)
  {
    match outcome
    case Failed => Ok("Failed to fetch data")
    case Fetched(sheet) =>
      if sheet.exchangeRate.None? then Err(MissingKey("exchangeRate"))
      else
        var entries := sheet.exchangeRate.value;
        match FirstMatch(entries, currency)
        case Some(i) => Ok(RateLine(currency, entries[i]))
        case None => Ok("No data for " + currency)
  }

  // ---------------------------------------------------------------------------
  // Connections and delivery

  /** One message put on one connection. */
  datatype Delivery = Delivery(to: ConnId, text: string)

  /** How a session ended: the peer closed the stream, or an exception escaped the loop. */
  datatype SessionEnd = Closed | Raised(error: Error)

  function Receivers(ds: seq<Delivery>): set<ConnId>
  {
    set k | 0 <= k < |ds| :: ds[k].to
  }

  /** No connection receives twice. */
  predicate Distinct(ds: seq<Delivery>)
  {
    forall i, j :: 0 <= i < j < |ds| ==> ds[i].to != ds[j].to
  }

  lemma DeliveryAppended(ds: seq<Delivery>, d: Delivery)
    ensures Receivers(ds + [d]) == Receivers(ds) + {d.to}
  {
    var e := ds + [d];
    assert e[|ds|].to == d.to;
    forall c | c in Receivers(ds) ensures c in Receivers(e) {
      var k :| 0 <= k < |ds| && ds[k].to == c;
      assert e[k].to == c;
    }
  }

  predicate AllCarry(ds: seq<Delivery>, text: string)
  {
    forall k :: 0 <= k < |ds| ==> ds[k].text == text
  }

  /**
   * Whether one turn of a session completes without raising, with `members` registered:
   * a command needs its report and a live sender; chat needs every other client alive.
   */
  predicate TurnPasses(ws: ConnId, message: string, members: set<ConnId>, dead: set<ConnId>,
                       dateOf: nat -> string, provider: string -> FetchOutcome)
  {
    if IsCommand(message) then Report(Split(message)[1..], dateOf, provider).Ok? && ws !in dead
    else (members - {ws}) * dead == {}
  }

  /**
   * A delivery that one turn for `message` may make: the command's report to the
   * sender, or the chat message itself to some other client.
   */
  predicate TurnDelivery(ws: ConnId, message: string, d: Delivery, dateOf: nat -> string, provider: string -> FetchOutcome)
  {
    if d.to == ws then IsCommand(message) && Report(Split(message)[1..], dateOf, provider) == Ok(d.text)
    else !IsCommand(message) && d.text == message
  }

  /**
   * The deliveries one turn for `message` made: each is one the turn may make, goes to
   * one of `members` that is not in `dead` (a send to a closed connection raises and
   * delivers nothing), and no connection receives twice.
   */
  predicate TurnMade(ws: ConnId, message: string, members: set<ConnId>, dead: set<ConnId>, made: seq<Delivery>,
                     dateOf: nat -> string, provider: string -> FetchOutcome)
  {
    && Distinct(made)
    && forall d :: d in made ==> TurnDelivery(ws, message, d, dateOf, provider) && d.to in members - dead
  }

  /** The deliveries of consecutive turns, one turn after the other. */
  function Concat(turns: seq<seq<Delivery>>): seq<Delivery>
  {
    if turns == [] then [] else Concat(turns[..|turns| - 1]) + turns[|turns| - 1]
  }

  lemma ConcatSnoc(turns: seq<seq<Delivery>>, more: seq<Delivery>)
    ensures Concat(turns + [more]) == Concat(turns) + more
  {
    assert (turns + [more])[..|turns|] == turns;
  }

  /** Every delivery of a session was made by one of its turns. */
  lemma {:induction false} InConcat(turns: seq<seq<Delivery>>, d: Delivery)
    requires d in Concat(turns)
    ensures exists k :: 0 <= k < |turns| && d in turns[k]
  {
    var n := |turns| - 1;
    if d !in turns[n] {
      InConcat(turns[..n], d);
      var k :| 0 <= k < n && d in turns[..n][k];
      assert d in turns[k];
    }
  }

  /**
   * What a turn for `message` that passed has delivered within `made`: the command's
   * report to the sender, or the chat message to every other member.
   */
  predicate TurnDelivered(ws: ConnId, message: string, members: set<ConnId>, made: seq<Delivery>,
                          dateOf: nat -> string, provider: string -> FetchOutcome)
  {
    if IsCommand(message) then
      var report := Report(Split(message)[1..], dateOf, provider);
      report.Ok? && Delivery(ws, report.value) in made
    else forall c :: c in members - {ws} ==> Delivery(c, message) in made
  }

  /**
   * The exception a raising turn for `message` raises: the command's own error, or
   * ConnectionClosed for the dead sender of a report or for some dead other member.
   */
  predicate TurnRaises(ws: ConnId, message: string, members: set<ConnId>, dead: set<ConnId>, e: Error,
                       dateOf: nat -> string, provider: string -> FetchOutcome)
  {
    if IsCommand(message) then
      var report := Report(Split(message)[1..], dateOf, provider);
      if report.Err? then e == report.error else ws in dead && e == ConnectionClosed(ws)
    else e.ConnectionClosed? && e.conn in (members - {ws}) * dead
  }

  /** What `log_command` writes for the turn of `message`: the message, once its report exists. */
  function LoggedBy(message: string, dateOf: nat -> string, provider: string -> FetchOutcome): seq<string>
  {
    if IsCommand(message) && Report(Split(message)[1..], dateOf, provider).Ok? then [message] else []
  }

  /** The commands among `messages`, in order. */
  function Commands(messages: seq<string>): seq<string>
  {
    if messages == [] then []
    else
      var n := |messages| - 1;
      Commands(messages[..n]) + (if IsCommand(messages[n]) then [messages[n]] else [])
  }

  /** Every entry of `Commands(messages)` is a command taken from `messages`. */
  lemma {:induction false} CommandsAreCommands(messages: seq<string>)
    ensures forall m :: m in Commands(messages) ==> m in messages && IsCommand(m)
  {
    if messages != [] {
      var n := |messages| - 1;
      CommandsAreCommands(messages[..n]);
      assert forall m :: m in messages[..n] ==> m in messages;
    }
  }

  /**
   * The module-level `clients` set together with what has been sent so far and the
   * command audit log (`chat.log`, timestamps left out).
   */
  class Server {
    var clients: set<ConnId>
    var sent: seq<Delivery>
    var commandLog: seq<string>

    /** `clients = set()` */
    constructor ()
      ensures clients == {} && sent == [] && commandLog == []
    {
      clients, sent, commandLog := {}, [], [];
    }

    /** `clients.add(websocket)` */
    method Add(ws: ConnId)
      modifies this`clients
      ensures clients == old(clients) + {ws}
    {
      clients := clients + {ws};
    }

    /** `clients.remove(websocket)`, which raises KeyError for a connection not in the set. */
    method Remove(ws: ConnId) returns (r: Outcome<Error>)
      modifies this`clients
      ensures r.Pass? <==> ws in old(clients)
      ensures r.Fail? ==> r.error == NotRegistered(ws)
      ensures clients == old(clients) - {ws}
    {
      if ws !in clients {
        return Fail(NotRegistered(ws));
      }
      clients := clients - {ws};
      r := Pass;
    }

    /**
     * The chat branch: the message is sent to each registered client except the sender.
     * The set is visited in an unspecified order; a send to a connection in `dead` raises
     * and ends the loop. Every delivery made carries the message, goes to a client other
     * than the sender and goes there once; the loop completes exactly when no other
     * client is dead, and then every other client has received the message.
     */
    method Broadcast(sender: ConnId, message: string, dead: set<ConnId>) returns (r: Outcome<Error>)
      modifies this`sent
      ensures |sent| >= |old(sent)| && sent[..|old(sent)|] == old(sent)
      ensures AllCarry(sent[|old(sent)|..], message) && Distinct(sent[|old(sent)|..])
      ensures Receivers(sent[|old(sent)|..]) <= clients - {sender} - dead
      ensures r.Pass? <==> (clients - {sender}) * dead == {}
      ensures r.Pass? ==> Receivers(sent[|old(sent)|..]) == clients - {sender}
      ensures r.Fail? ==> r.error.ConnectionClosed? && r.error.conn in (clients - {sender}) * dead
    {
      ghost var base := sent;
      ghost var made: seq<Delivery> := [];
      var pending := clients;
      while pending != {}
        invariant pending <= clients
        invariant sent == base + made
        invariant Receivers(made) == clients - pending - {sender}
        invariant Receivers(made) * dead == {}
        invariant AllCarry(made, message) && Distinct(made)
        decreases pending
      {
        var client :| client in pending;
        pending := pending - {client};
        if client != sender {
          if client in dead {
            assert client in (clients - {sender}) * dead;
            assert sent[|old(sent)|..] == made;
            return Fail(ConnectionClosed(client));
          }
          assert client !in Receivers(made);
          DeliveryAppended(made, Delivery(client, message));
          made := made + [Delivery(client, message)];
          sent := sent + [Delivery(client, message)];
        }
      }
      assert sent[|old(sent)|..] == made;
      r := Pass;
    }

    /**
     * One turn of the `async for` loop. A command computes its report, logs the raw
     * message, then sends the report to the sender only; chat is broadcast to the others.
     */
    method HandleMessage(ws: ConnId, message: string, dateOf: nat -> string, provider: string -> FetchOutcome, dead: set<ConnId>)
      returns (r: Outcome<Error>)
      modifies this`sent, this`commandLog
      ensures |sent| >= |old(sent)| && sent[..|old(sent)|] == old(sent)
      ensures Distinct(sent[|old(sent)|..])
      ensures commandLog == old(commandLog) + LoggedBy(message, dateOf, provider)
      ensures r.Pass? <==> TurnPasses(ws, message, clients, dead, dateOf, provider)
      ensures forall d :: d in sent[|old(sent)|..] ==> TurnDelivery(ws, message, d, dateOf, provider) && d.to in clients + {ws}
      ensures forall d :: d in sent[|old(sent)|..] ==> d.to !in dead
      ensures r.Pass? ==> TurnDelivered(ws, message, clients, sent[|old(sent)|..], dateOf, provider)
      ensures r.Fail? ==> TurnRaises(ws, message, clients, dead, r.error, dateOf, provider)
      ensures IsCommand(message) ==>
        var report := Report(Split(message)[1..], dateOf, provider);
        && (report.Err? ==> r == Fail(report.error) && sent == old(sent) && commandLog == old(commandLog))
        && (report.Ok? ==> commandLog == old(commandLog) + [message])
        && (report.Ok? && ws in dead ==> r == Fail(ConnectionClosed(ws)) && sent == old(sent))
        && (report.Ok? && ws !in dead ==> r == Pass && sent == old(sent) + [Delivery(ws, report.value)])
      ensures !IsCommand(message) ==>
        && commandLog == old(commandLog)
        && AllCarry(sent[|old(sent)|..], message) && Distinct(sent[|old(sent)|..])
        && Receivers(sent[|old(sent)|..]) <= clients - {ws}
        && (r.Pass? <==> (clients - {ws}) * dead == {})
        && (r.Pass? ==> Receivers(sent[|old(sent)|..]) == clients - {ws})
    {
      match RouteOf(message)
      case Command(params) =>
        var result := ExchangeCommand(params, dateOf, provider);
        if result.Err? {
          return Fail(result.error);
        }
        commandLog := commandLog + [message];
        if ws in dead {
          return Fail(ConnectionClosed(ws));
        }
        sent := sent + [Delivery(ws, result.value)];
        assert sent[|old(sent)|..] == [Delivery(ws, result.value)];
        r := Pass;
      case Chat(text) =>
        r := Broadcast(ws, text, dead);
        var made := sent[|old(sent)|..];
        forall d | d in made
          ensures TurnDelivery(ws, message, d, dateOf, provider) && d.to in clients + {ws} && d.to !in dead
        {
          var i :| 0 <= i < |made| && made[i] == d;
          assert d.to in Receivers(made);
        }
        if r.Pass? {
          forall c | c in clients - {ws}
            ensures Delivery(c, message) in made
          {
            ReceivedCarried(made, message, c);
          }
        }
    }

    /**
     * One turn of a session whose connection is registered, seen from the session loop:
     * `more` is what the turn delivered.
     */
    method Turn(ws: ConnId, message: string, dateOf: nat -> string, provider: string -> FetchOutcome, dead: set<ConnId>)
      returns (r: Outcome<Error>, ghost more: seq<Delivery>)
      requires ws in clients
      modifies this`sent, this`commandLog
      ensures sent == old(sent) + more
      ensures TurnMade(ws, message, clients, dead, more, dateOf, provider)
      ensures r.Pass? <==> TurnPasses(ws, message, clients, dead, dateOf, provider)
      ensures r.Pass? ==> TurnDelivered(ws, message, clients, more, dateOf, provider)
      ensures r.Fail? ==> TurnRaises(ws, message, clients, dead, r.error, dateOf, provider)
      ensures commandLog == old(commandLog) + LoggedBy(message, dateOf, provider)
    {
      r := HandleMessage(ws, message, dateOf, provider, dead);
      more := sent[|old(sent)|..];
      assert sent == old(sent) + more;
    }

    /**
     * `handle_client`: register, handle the inbound messages in order until the stream
     * ends or a turn raises, and in the `finally` block unregister. `handled` counts the
     * turns that completed: all of them when the stream ends, otherwise the turn after
     * them raised. `turns` holds what each turn that ran delivered, in turn order, and
     * the new deliveries are exactly these one after the other. The removal never
     * raises, because the session's own connection stays registered throughout.
     */
    method HandleClient(ws: ConnId, inbox: seq<string>, dateOf: nat -> string, provider: string -> FetchOutcome, dead: set<ConnId>)
      returns (end: SessionEnd, ghost handled: nat, ghost turns: seq<seq<Delivery>>)
      modifies this
      ensures clients == old(clients) - {ws}
      ensures SessionMade(ws, inbox, old(clients) + {ws}, dead, end, handled, turns, dateOf, provider)
      ensures sent == old(sent) + Concat(turns)
      ensures commandLog == old(commandLog) + Commands(inbox[..handled])
                            + (if end.Raised? then LoggedBy(inbox[handled], dateOf, provider) else [])
    {
      Add(ws);
      end, handled, turns := Serve(ws, inbox, dateOf, provider, dead);
      var removed := Remove(ws);
      assert removed.Pass?;
    }

    /**
     * The `async for` loop of a session, with the session's own connection registered:
     * the turns in order, up to the first that raises.
     */
    method Serve(ws: ConnId, inbox: seq<string>, dateOf: nat -> string, provider: string -> FetchOutcome, dead: set<ConnId>)
      returns (end: SessionEnd, ghost handled: nat, ghost turns: seq<seq<Delivery>>)
      requires ws in clients
      modifies this`sent, this`commandLog
      ensures SessionMade(ws, inbox, clients, dead, end, handled, turns, dateOf, provider)
      ensures sent == old(sent) + Concat(turns)
      ensures commandLog == old(commandLog) + Commands(inbox[..handled])
                            + (if end.Raised? then LoggedBy(inbox[handled], dateOf, provider) else [])
    {
      ghost var log0 := commandLog;
      end := Closed;
      turns := [];
      var k := 0;
      while k < |inbox|
        invariant 0 <= k <= |inbox| && |turns| == k
        invariant sent == old(sent) + Concat(turns)
        invariant forall j :: 0 <= j < k ==> TurnMade(ws, inbox[j], clients, dead, turns[j], dateOf, provider)
        invariant forall j :: 0 <= j < k ==>
                    && TurnPasses(ws, inbox[j], clients, dead, dateOf, provider)
                    && TurnDelivered(ws, inbox[j], clients, turns[j], dateOf, provider)
        invariant commandLog == log0 + Commands(inbox[..k])
      {
        var step, more := Turn(ws, inbox[k], dateOf, provider, dead);
        ConcatSnoc(turns, more);
        TurnsStep(ws, inbox, clients, dead, turns, more, step.Pass?, dateOf, provider);
        turns := turns + [more];
        if step.Fail? {
          end := Raised(step.error);
          break;
        }
        assert inbox[..k + 1][..k] == inbox[..k];
        k := k + 1;
      }
      handled := k;
    }
  }

  /**
   * The record a session leaves: `handled` turns passed and delivered what they
   * promise, and when the session raised, one more turn made its deliveries and
   * raised the exception `end` carries. Every turn made only deliveries it may make.
   */
  predicate SessionMade(ws: ConnId, inbox: seq<string>, members: set<ConnId>, dead: set<ConnId>,
                        end: SessionEnd, handled: nat, turns: seq<seq<Delivery>>,
                        dateOf: nat -> string, provider: string -> FetchOutcome)
  {
    && handled <= |inbox|
    && (end.Closed? <==> handled == |inbox|)
    && |turns| == (if end.Raised? then handled + 1 else handled)
    && (forall k :: 0 <= k < |turns| ==> TurnMade(ws, inbox[k], members, dead, turns[k], dateOf, provider))
    && (forall k :: 0 <= k < handled ==>
          && TurnPasses(ws, inbox[k], members, dead, dateOf, provider)
          && TurnDelivered(ws, inbox[k], members, turns[k], dateOf, provider))
    && (end.Raised? ==> !TurnPasses(ws, inbox[handled], members, dead, dateOf, provider))
    && (end.Raised? ==> TurnRaises(ws, inbox[handled], members, dead, end.error, dateOf, provider))
  }

  /** Every delivery of a session goes to a member whose connection is open. */
  lemma SessionLive(ws: ConnId, inbox: seq<string>, members: set<ConnId>, dead: set<ConnId>,
                    end: SessionEnd, handled: nat, turns: seq<seq<Delivery>>,
                    dateOf: nat -> string, provider: string -> FetchOutcome)
    requires SessionMade(ws, inbox, members, dead, end, handled, turns, dateOf, provider)
    ensures forall d :: d in Concat(turns) ==> d.to in members - dead
  {
    forall d | d in Concat(turns)
      ensures d.to in members - dead
    {
      InConcat(turns, d);
    }
  }

  /**
   * A session's record grows by one turn: with turns `0 .. k-1` made, passed and
   * delivered, and turn `k` made (and passed and delivered when `pass`), the record
   * with turn `k` appended states the same of turns `0 .. k`.
   */
  lemma TurnsStep(ws: ConnId, inbox: seq<string>, members: set<ConnId>, dead: set<ConnId>,
                  turns: seq<seq<Delivery>>, more: seq<Delivery>, pass: bool,
                  dateOf: nat -> string, provider: string -> FetchOutcome)
    requires |turns| < |inbox|
    requires forall j :: 0 <= j < |turns| ==> TurnMade(ws, inbox[j], members, dead, turns[j], dateOf, provider)
    requires forall j :: 0 <= j < |turns| ==>
               && TurnPasses(ws, inbox[j], members, dead, dateOf, provider)
               && TurnDelivered(ws, inbox[j], members, turns[j], dateOf, provider)
    requires TurnMade(ws, inbox[|turns|], members, dead, more, dateOf, provider)
    requires pass ==> TurnPasses(ws, inbox[|turns|], members, dead, dateOf, provider)
    requires pass ==> TurnDelivered(ws, inbox[|turns|], members, more, dateOf, provider)
    ensures forall j :: 0 <= j < |turns| + 1 ==> TurnMade(ws, inbox[j], members, dead, (turns + [more])[j], dateOf, provider)
    ensures forall j :: 0 <= j < |turns| ==>
              && TurnPasses(ws, inbox[j], members, dead, dateOf, provider)
              && TurnDelivered(ws, inbox[j], members, (turns + [more])[j], dateOf, provider)
    ensures pass ==> forall j :: 0 <= j < |turns| + 1 ==>
              && TurnPasses(ws, inbox[j], members, dead, dateOf, provider)
              && TurnDelivered(ws, inbox[j], members, (turns + [more])[j], dateOf, provider)
  {
    var all := turns + [more];
    assert all[|turns|] == more;
    assert forall j :: 0 <= j < |turns| ==> all[j] == turns[j];
  }

  /** A client among the receivers of deliveries that all carry `text` received `text`. */
  lemma ReceivedCarried(ds: seq<Delivery>, text: string, c: ConnId)
    requires AllCarry(ds, text) && c in Receivers(ds)
    ensures Delivery(c, text) in ds
  {
    var k :| 0 <= k < |ds| && ds[k].to == c;
    assert ds[k] == Delivery(c, text);
  }

  /** The command word alone is a single token. */
  lemma CommandWordIsOneToken()
    ensures Split(CommandWord) == [CommandWord]
  {
    forall i | 0 <= i < |CommandWord|
      ensures !IsSpace(CommandWord[i])
    {
    }
    SplitSingleToken(CommandWord);
  }

  /** `exchange` followed by one space and a single token is a command with that token as its one parameter. */
  lemma ExchangeTokenRoute(tok: string)
    requires tok != [] && NoSpace(tok)
    ensures RouteOf("exchange " + tok) == Command([tok])
  {
    var m := CommandWord + [' '] + tok;
    assert m == "exchange " + tok;
    SplitAtSpace(CommandWord, ' ', tok);
    CommandWordIsOneToken();
    SplitSingleToken(tok);
    assert Split(m) == ["exchange", tok];
    assert IsCommand(m);
  }

  /** `exchange 2` is a command with the single parameter `2`. */
  lemma ExchangeTwoRoute()
    ensures RouteOf("exchange 2") == Command(["2"])
  {
    assert NoSpace("2");
    ExchangeTokenRoute("2");
    assert "exchange " + "2" == "exchange 2";
  }

  /** With a rate API whose every query fails, a two-day report is the two failure lines. */
  lemma TwoFailedDays(dateOf: nat -> string, provider: string -> FetchOutcome)
    requires forall date :: provider(date) == Failed
    ensures Report(["2"], dateOf, provider)
              == Ok("Failed to fetch data for " + dateOf(0) + "\n\n" + "Failed to fetch data for " + dateOf(1))
  {
    assert ParseInt("2") == Some(2);
    DayBlocksMeaning(2, dateOf, provider);
    var blocks := DayBlocks(2, dateOf, provider).value;
    assert blocks == ["Failed to fetch data for " + dateOf(0), "Failed to fetch data for " + dateOf(1)];
    assert Join("\n\n", blocks) == blocks[0] + "\n\n" + blocks[1];
    assert blocks[0] + "\n\n" + blocks[1]
        == "Failed to fetch data for " + dateOf(0) + "\n\n" + "Failed to fetch data for " + dateOf(1);
  }

  /** With every query failing, `exchange 2` is a command whose report is the two failure lines. */
  lemma ExchangeTwoFailedReport(dateOf: nat -> string, provider: string -> FetchOutcome)
    requires forall date :: provider(date) == Failed
    ensures IsCommand("exchange 2")
    ensures Report(Split("exchange 2")[1..], dateOf, provider)
              == Ok("Failed to fetch data for " + dateOf(0) + "\n\n" + "Failed to fetch data for " + dateOf(1))
  {
    ExchangeTwoRoute();
    TwoFailedDays(dateOf, provider);
  }

  /** Names `t[0]` for the solver, so that a branch with a non-empty `t` can reach `assert false`. */
  lemma FirstDelivery(t: seq<Delivery>)
    requires t != []
    ensures t[0] in t
  {
  }

  /** Names `t[0]` and `t[1]` for the solver, so that a branch with two deliveries can reach `assert false`. */
  lemma DistinctHead(t: seq<Delivery>)
    requires Distinct(t) && |t| >= 2
    ensures t[0].to != t[1].to && t[1] in t
  {
  }

  /** A list of deliveries with no connection twice, all equal to one that it holds, is that one alone. */
  lemma SoleDelivery(t: seq<Delivery>, d: Delivery)
    requires Distinct(t) && d in t
    requires forall e :: e in t ==> e == d
    ensures t == [d]
  {
    FirstDelivery(t);
    if |t| >= 2 {
      DistinctHead(t);
      assert false;
    }
  }

  /** A command's turn that passed sent exactly one message: its report, to the sender. */
  lemma CommandTurnSendsReport(ws: ConnId, message: string, members: set<ConnId>, dead: set<ConnId>, t: seq<Delivery>,
                               dateOf: nat -> string, provider: string -> FetchOutcome)
    requires IsCommand(message)
    requires TurnMade(ws, message, members, dead, t, dateOf, provider)
    requires TurnDelivered(ws, message, members, t, dateOf, provider)
    ensures t == [Delivery(ws, Report(Split(message)[1..], dateOf, provider).value)]
  {
    SoleDelivery(t, Delivery(ws, Report(Split(message)[1..], dateOf, provider).value));
  }

  /** A chat turn sends the message itself, to live other members only. */
  lemma ChatTurnSendsToOthers(ws: ConnId, message: string, members: set<ConnId>, dead: set<ConnId>, t: seq<Delivery>,
                              dateOf: nat -> string, provider: string -> FetchOutcome)
    requires !IsCommand(message)
    requires TurnMade(ws, message, members, dead, t, dateOf, provider)
    ensures forall e :: e in t ==> e.to in members - {ws} - dead && e.text == message
  {
  }

  /** A command's turn whose report raises sends nothing. */
  lemma FailedCommandSendsNothing(ws: ConnId, message: string, members: set<ConnId>, dead: set<ConnId>, t: seq<Delivery>,
                                  dateOf: nat -> string, provider: string -> FetchOutcome)
    requires IsCommand(message) && Report(Split(message)[1..], dateOf, provider).Err?
    requires TurnMade(ws, message, members, dead, t, dateOf, provider)
    ensures t == []
  {
    if t != [] {
      FirstDelivery(t);
      assert false;
    }
  }

  /** A command turn of a closed connection delivers nothing: its one recipient is the sender. */
  lemma DeadSenderCommandSendsNothing(ws: ConnId, message: string, members: set<ConnId>, dead: set<ConnId>, t: seq<Delivery>,
                                      dateOf: nat -> string, provider: string -> FetchOutcome)
    requires IsCommand(message) && ws in dead
    requires TurnMade(ws, message, members, dead, t, dateOf, provider)
    ensures t == []
  {
    if t != [] {
      FirstDelivery(t);
      assert false;
    }
  }

  /** `exchange x` is a command whose report raises ValueError for `x`. */
  lemma ExchangeXFails(dateOf: nat -> string, provider: string -> FetchOutcome)
    ensures IsCommand("exchange x")
    ensures Report(Split("exchange x")[1..], dateOf, provider) == Err(InvalidLiteral("x"))
  {
    assert NoSpace("x");
    ExchangeTokenRoute("x");
    assert "exchange " + "x" == "exchange x";
    assert !IsDigit("x"[0]);
    BadDayCountFailsCommand(["x"], dateOf, provider);
  }

  /**
   * Peer 2 is connected and peer 1's session receives `exchange x` and then `hello`:
   * the first turn raises ValueError, so the session ends there with peer 1 removed,
   * nothing was sent, `hello` in particular never reaches peer 2, and nothing was logged.
   */
  method BadCommandThenHello(dateOf: nat -> string, provider: string -> FetchOutcome)
  {
    var server := new Server();
    server.Add(2);
    ExchangeXFails(dateOf, provider);
    assert server.clients + {1} == {2} + {1};
    var end, handled, turns := server.HandleClient(1, ["exchange x", "hello"], dateOf, provider, {});
    assert !TurnPasses(1, "exchange x", {2} + {1}, {}, dateOf, provider);
    assert handled == 0 && end == Raised(InvalidLiteral("x"));
    FailedCommandSendsNothing(1, "exchange x", {2} + {1}, {}, turns[0], dateOf, provider);
    assert turns == [[]];
    assert Concat(turns) == [] by {
      assert turns[..0] == [];
    }
    assert server.sent == [];
    assert Delivery(2, "hello") !in server.sent;
    assert server.commandLog == [] && server.clients == {2};
  }

  /**
   * Peers 2 and 3 are connected but 3's connection has closed: peer 1's session over
   * `hello` never delivers to peer 3.
   */
  method DeadPeerMissesHello(dateOf: nat -> string, provider: string -> FetchOutcome)
  {
    var server := new Server();
    server.Add(2);
    server.Add(3);
    var end, handled, turns := server.HandleClient(1, ["hello"], dateOf, provider, {3});
    assert Delivery(3, "hello") !in server.sent;
  }

  /**
   * Peer 2 is connected and peer 1's own connection has closed: its session over
   * `exchange 2` delivers nothing at all, whatever the rate API answers.
   */
  method DeadSenderExchange(dateOf: nat -> string, provider: string -> FetchOutcome)
  {
    var server := new Server();
    server.Add(2);
    var end, handled, turns := server.HandleClient(1, ["exchange 2"], dateOf, provider, {1});
    DeadSenderTurns(turns, dateOf, provider);
    assert server.sent == [];
  }

  /** The turns of a session over `exchange 2` from a closed connection deliver nothing. */
  lemma DeadSenderTurns(turns: seq<seq<Delivery>>, dateOf: nat -> string, provider: string -> FetchOutcome)
    requires |turns| <= 1
    requires forall k :: 0 <= k < |turns| ==> TurnMade(1, ["exchange 2"][k], {2} + {1}, {1}, turns[k], dateOf, provider)
    ensures Concat(turns) == []
  {
    if |turns| == 1 {
      ExchangeTwoRoute();
      assert TurnMade(1, "exchange 2", {2} + {1}, {1}, turns[0], dateOf, provider);
      DeadSenderCommandSendsNothing(1, "exchange 2", {2} + {1}, {1}, turns[0], dateOf, provider);
      assert turns[..0] == [];
    }
  }

  /** With peer 2 connected, peer 1's turn for `hello` sends `hello` to peer 2 and nothing else. */
  lemma HelloTurn(t: seq<Delivery>, dateOf: nat -> string, provider: string -> FetchOutcome)
    requires TurnMade(1, "hello", {2} + {1}, {}, t, dateOf, provider)
    requires TurnDelivered(1, "hello", {2} + {1}, t, dateOf, provider)
    ensures t == [Delivery(2, "hello")]
  {
    assert !IsCommand("hello");
    ChatTurnSendsToOthers(1, "hello", {2} + {1}, {}, t, dateOf, provider);
    SoleDelivery(t, Delivery(2, "hello"));
  }

  /** Peer 1's turn for `exchange 2` that delivered sends peer 1 the two-day report and nothing else. */
  lemma ExchangeTwoTurn(t: seq<Delivery>, report: string, dateOf: nat -> string, provider: string -> FetchOutcome)
    requires Report(["2"], dateOf, provider) == Ok(report)
    requires TurnMade(1, "exchange 2", {2} + {1}, {}, t, dateOf, provider)
    requires TurnDelivered(1, "exchange 2", {2} + {1}, t, dateOf, provider)
    ensures t == [Delivery(1, report)]
  {
    ExchangeTwoRoute();
    CommandTurnSendsReport(1, "exchange 2", {2} + {1}, {}, t, dateOf, provider);
  }

  lemma ConcatTwo(turns: seq<seq<Delivery>>)
    requires |turns| == 2
    ensures Concat(turns) == turns[0] + turns[1]
  {
    assert Concat(turns[..1]) == turns[0] by {
      assert turns[..1][..0] == [];
    }
  }

  /**
   * With peer 2 connected and every query failing, the two turns of peer 1's session
   * over `hello` and `exchange 2` send `hello` to peer 2 and then the report to peer 1.
   */
  lemma HelloThenExchangeTurns(turns: seq<seq<Delivery>>, report: string, dateOf: nat -> string, provider: string -> FetchOutcome)
    requires Report(["2"], dateOf, provider) == Ok(report)
    requires |turns| == 2
    requires TurnMade(1, "hello", {2} + {1}, {}, turns[0], dateOf, provider)
    requires TurnDelivered(1, "hello", {2} + {1}, turns[0], dateOf, provider)
    requires TurnMade(1, "exchange 2", {2} + {1}, {}, turns[1], dateOf, provider)
    requires TurnDelivered(1, "exchange 2", {2} + {1}, turns[1], dateOf, provider)
    ensures Concat(turns) == [Delivery(2, "hello"), Delivery(1, report)]
  {
    HelloTurn(turns[0], dateOf, provider);
    ExchangeTwoTurn(turns[1], report, dateOf, provider);
    ConcatTwo(turns);
  }

  /** Both turns of peer 1's session over `hello` and `exchange 2` pass, and only the command is logged. */
  lemma HelloThenExchangePasses(dateOf: nat -> string, provider: string -> FetchOutcome)
    requires forall date :: provider(date) == Failed
    ensures forall k :: 0 <= k < 2 ==> TurnPasses(1, ["hello", "exchange 2"][k], {2} + {1}, {}, dateOf, provider)
    ensures Commands(["hello", "exchange 2"]) == ["exchange 2"]
  {
    var inbox := ["hello", "exchange 2"];
    ExchangeTwoFailedReport(dateOf, provider);
    assert !IsCommand("hello");
    assert TurnPasses(1, inbox[0], {2} + {1}, {}, dateOf, provider);
    assert TurnPasses(1, inbox[1], {2} + {1}, {}, dateOf, provider);
    assert inbox[..1] == ["hello"] && inbox[..1][..0] == [];
    assert Commands(inbox[..1]) == [];
  }

  /**
   * Peer 2 is connected and peer 1's session receives `hello` and then `exchange 2`, with
   * a rate API whose every query fails: the session ends `Closed` with peer 1 removed;
   * what was sent is `hello` to peer 2 and then the two failure lines to peer 1, in this
   * order and nothing else; and the command is in the log.
   */
  method HelloThenExchange(dateOf: nat -> string, provider: string -> FetchOutcome)
    requires forall date :: provider(date) == Failed
  {
    var server := new Server();
    server.Add(2);
    var inbox := ["hello", "exchange 2"];
    assert server.clients + {1} == {2} + {1};
    var end, handled, turns := server.HandleClient(1, inbox, dateOf, provider, {});
    HelloThenExchangeSession(inbox, end, handled, turns, server.sent, server.commandLog, dateOf, provider);
    assert server.clients == {2};
  }

  /** What peer 1's session over `hello` and `exchange 2` comes to, from the record its turns leave. */
  lemma HelloThenExchangeSession(inbox: seq<string>, end: SessionEnd, handled: nat, turns: seq<seq<Delivery>>,
                                 sent: seq<Delivery>, log: seq<string>, dateOf: nat -> string, provider: string -> FetchOutcome)
    requires forall date :: provider(date) == Failed
    requires inbox == ["hello", "exchange 2"]
    requires SessionMade(1, inbox, {2} + {1}, {}, end, handled, turns, dateOf, provider)
    requires sent == [] + Concat(turns)
    requires log == [] + Commands(inbox[..handled]) + (if end.Raised? then LoggedBy(inbox[handled], dateOf, provider) else [])
    ensures end.Closed? && handled == 2
    ensures sent == [Delivery(2, "hello"), Delivery(1, "Failed to fetch data for " + dateOf(0) + "\n\n" + "Failed to fetch data for " + dateOf(1))]
    ensures log == ["exchange 2"]
  {
    HelloThenExchangePasses(dateOf, provider);
    assert end.Closed? && handled == 2;
    var report := "Failed to fetch data for " + dateOf(0) + "\n\n" + "Failed to fetch data for " + dateOf(1);
    TwoFailedDays(dateOf, provider);
    HelloThenExchangeTurns(turns, report, dateOf, provider);
    assert inbox[..handled] == inbox;
  }

  /**
   * Two peers connected, and a rate API whose every query fails. Peer 1 sends `hello`:
   * peer 2 receives it and peer 1 does not. Peer 1 then sends `exchange 2`: the turn
   * passes and peer 1 alone receives the two failure lines, today's first.
   */
  method TwoPeers(dateOf: nat -> string)
  {
    var provider := (date: string) => Failed;
    var server := new Server();
    server.Add(1);
    server.Add(2);
    assert !IsCommand("hello");
    var r := server.HandleMessage(1, "hello", dateOf, provider, {});
    assert r.Pass? && Receivers(server.sent) == {2};
    assert AllCarry(server.sent, "hello");
    ghost var chat := server.sent;
    assert IsCommand("exchange 2");
    ExchangeTwoRoute();
    TwoFailedDays(dateOf, provider);
    var q := server.HandleMessage(1, "exchange 2", dateOf, provider, {});
    assert q.Pass?;
    assert server.sent == chat + [Delivery(1, "Failed to fetch data for " + dateOf(0) + "\n\n" + "Failed to fetch data for " + dateOf(1))];
  }
}
