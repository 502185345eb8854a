/**
 Uploading connection events (connlogLoop in internal/agent/agent.go, agentConnlog in
 internal/api/agent.go, Ingest in internal/connlog/store.go). Batches carry a sequence
 number; requests and responses get lost, batches are retried, the agent restarts and
 its state file lags behind.
 */
module Upload {
  import opened Durable

  const MAX_BATCH: nat := 500
  const MAX_HOST: nat := 253
  const SKEW: int := 600
  const DAY: int := 86400

  /** What the log reader found; `host` is trimmed and in lower case, `ts` is 0 when unknown. */
  datatype Connection = Connection(node: int, ts: int, host: string)

  /** A connection with the identity of its occurrence. */
  datatype Event = Event(id: nat, connection: Connection)

  // ---------------------------------------------------------------- the store

  datatype Row = Row(event: nat, node: int, share: Option<int>, ts: int, host: string, sequence: nat)

  datatype Key = Key(day: int, share: int, node: int, host: string)

  datatype Tables = Tables(rows: seq<Row>, daily: map<Key, nat>)

  /** The context of one ingest: the clock and the share of each node. */
  datatype Context = Context(now: int, shareOf: map<int, int>)

  function KeyOf(r: Row): Key { Key(r.ts / DAY, r.share.GetOr(0), r.node, r.host) }

  function RowOf(e: Event, sequence: nat, c: Context): Row {
    var host := e.connection.host;
    var ts := e.connection.ts;
    Row(
      e.id, e.connection.node,
      if e.connection.node in c.shareOf then Some(c.shareOf[e.connection.node]) else None,
      if ts == 0 || ts > c.now + SKEW then c.now else ts,
      if |host| > MAX_HOST then host[..MAX_HOST] else host,
      sequence)
  }

  function Hits(daily: map<Key, nat>, k: Key): nat { if k in daily then daily[k] else 0 }

  /** One raw row and its upsert into the daily table. */
  function Insert(t: Tables, r: Row): Tables {
    Tables(t.rows + [r], t.daily[KeyOf(r) := Hits(t.daily, KeyOf(r)) + 1])
  }

  function Inserted(t: Tables, events: seq<Event>, sequence: nat, c: Context): Tables {
    if events == [] then t
    else
      var n := |events| - 1;
      var before := Inserted(t, events[..n], sequence, c);
      if events[n].connection.host == "" then before else Insert(before, RowOf(events[n], sequence, c))
  }

  /** The row belongs to this day, share (0 for none), node and host. */
  predicate Belongs(r: Row, k: Key) {
    && k.day * DAY <= r.ts < (k.day + 1) * DAY
    && (if r.share.Some? then k.share == r.share.value else k.share == 0)
    && r.node == k.node && r.host == k.host
  }

  function Count(rows: seq<Row>, k: Key): nat {
    if rows == [] then 0 else Count(rows[..|rows| - 1], k) + (if Belongs(rows[|rows| - 1], k) then 1 else 0)
  }

  lemma BelongsToOne(r: Row, k: Key)
    ensures Belongs(r, k) <==> KeyOf(r) == k
  {
    assert r.ts == r.ts / DAY * DAY + r.ts % DAY;
  }

  /** Every daily counter is the number of raw rows with its key. */
  ghost predicate Counted(t: Tables) { forall k: Key :: Hits(t.daily, k) == Count(t.rows, k) }

  lemma InsertCounts(t: Tables, r: Row)
    requires Counted(t)
    ensures Counted(Insert(t, r))
  {
    assert (t.rows + [r])[..|t.rows|] == t.rows;
    forall k: Key
      ensures Hits(Insert(t, r).daily, k) == Count(t.rows + [r], k)
    {
      assert Hits(t.daily, k) == Count(t.rows, k);
      BelongsToOne(r, k);
    }
  }

  /** The row tells what the event was: its node, its share now, its host cut to length, its time unless that is unusable. */
  predicate Tells(r: Row, e: Event, sequence: nat, c: Context) {
    && r.event == e.id && r.node == e.connection.node && r.sequence == sequence
    && (e.connection.node in c.shareOf ==> r.share == Some(c.shareOf[e.connection.node]))
    && (e.connection.node !in c.shareOf ==> r.share.None?)
    && r.ts == (if e.connection.ts != 0 && e.connection.ts <= c.now + 600 then e.connection.ts else c.now)
    && |r.host| <= 253 && r.host <= e.connection.host && (|e.connection.host| <= 253 ==> r.host == e.connection.host)
    && (|e.connection.host| > 253 ==> |r.host| == 253)
  }

  /** Every row that ingesting adds tells an event of the batch that has a host. */
  lemma {:induction false} InsertedRowsTell(t: Tables, events: seq<Event>, sequence: nat, c: Context, r: Row)
    requires r in Inserted(t, events, sequence, c).rows
    ensures r in t.rows || exists e :: e in events && e.connection.host != "" && Tells(r, e, sequence, c)
  {
    if events != [] {
      var n := |events| - 1;
      if r in Inserted(t, events[..n], sequence, c).rows {
        InsertedRowsTell(t, events[..n], sequence, c, r);
      } else {
        assert Tells(r, events[n], sequence, c) && events[n] in events;
      }
    }
  }

  /** Earlier rows stay, in their order. */
  lemma {:induction false} InsertedAppends(t: Tables, events: seq<Event>, sequence: nat, c: Context)
    ensures t.rows <= Inserted(t, events, sequence, c).rows
  {
    if events != [] {
      InsertedAppends(t, events[..|events| - 1], sequence, c);
    }
  }

  lemma {:induction false} InsertedCounts(t: Tables, events: seq<Event>, sequence: nat, c: Context)
    requires Counted(t)
    ensures Counted(Inserted(t, events, sequence, c))
  {
    if events != [] {
      var n := |events| - 1;
      InsertedCounts(t, events[..n], sequence, c);
      InsertCounts(Inserted(t, events[..n], sequence, c), RowOf(events[n], sequence, c));
    }
  }

  function RowIds(rows: seq<Row>): set<nat> { set i | 0 <= i < |rows| :: rows[i].event }

  function Ids(events: seq<Event>): set<nat> { set i | 0 <= i < |events| :: events[i].id }

  ghost predicate Unique(rows: seq<Row>) { forall i, j :: 0 <= i < j < |rows| ==> rows[i].event != rows[j].event }

  ghost predicate Distinct(events: seq<Event>) { forall i, j :: 0 <= i < j < |events| ==> events[i].id != events[j].id }

  /** The events of a batch that make rows. */
  function Hosted(events: seq<Event>): set<nat> { set i | 0 <= i < |events| && events[i].connection.host != "" :: events[i].id }

  lemma HostedSnoc(events: seq<Event>)
    requires events != []
    ensures var e := events[|events| - 1];
            Hosted(events) == Hosted(events[..|events| - 1]) + (if e.connection.host == "" then {} else {e.id})
    ensures Hosted(events) <= Ids(events)
  {
  }

  /** Ingesting adds exactly the events with a host. */
  lemma {:induction false} InsertedIds(t: Tables, events: seq<Event>, sequence: nat, c: Context)
    ensures RowIds(Inserted(t, events, sequence, c).rows) == RowIds(t.rows) + Hosted(events)
  {
    if events != [] {
      var n := |events| - 1;
      InsertedIds(t, events[..n], sequence, c);
      HostedSnoc(events);
      InsertedOne(Inserted(t, events[..n], sequence, c), RowOf(events[n], sequence, c));
    }
  }

  /** New events stay stored once each. */
  lemma {:induction false} InsertedUnique(t: Tables, events: seq<Event>, sequence: nat, c: Context)
    requires Unique(t.rows) && Distinct(events) && Ids(events) !! RowIds(t.rows)
    ensures Unique(Inserted(t, events, sequence, c).rows)
  {
    if events != [] {
      var n := |events| - 1;
      InsertedUnique(t, events[..n], sequence, c);
      InsertedIds(t, events[..n], sequence, c);
      assert events[n].id in Ids(events);
      assert events[n].id !in Hosted(events[..n]);
      InsertedOne(Inserted(t, events[..n], sequence, c), RowOf(events[n], sequence, c));
    }
  }

  /** An event with a host that is already stored is stored again. */
  lemma {:induction false} InsertedClash(t: Tables, events: seq<Event>, sequence: nat, c: Context)
    requires Unique(Inserted(t, events, sequence, c).rows)
    ensures Unique(t.rows) && Hosted(events) !! RowIds(t.rows)
  {
    if events != [] {
      var n := |events| - 1;
      InsertedOne(Inserted(t, events[..n], sequence, c), RowOf(events[n], sequence, c));
      InsertedClash(t, events[..n], sequence, c);
      InsertedIds(t, events[..n], sequence, c);
      HostedSnoc(events);
    }
  }

  lemma InsertedOne(t: Tables, r: Row)
    ensures RowIds(Insert(t, r).rows) == RowIds(t.rows) + {r.event}
    ensures Unique(Insert(t, r).rows) <==> Unique(t.rows) && r.event !in RowIds(t.rows)
  {
    var rows := t.rows + [r];
    assert forall i :: 0 <= i < |t.rows| ==> rows[i] == t.rows[i];
    assert rows[|t.rows|] == r;
    if Unique(rows) {
      forall i, j | 0 <= i < j < |t.rows|
        ensures t.rows[i].event != t.rows[j].event
      {
        assert rows[i].event != rows[j].event;
      }
      forall i | 0 <= i < |t.rows|
        ensures t.rows[i].event != r.event
      {
        assert rows[i].event != rows[|t.rows|].event;
      }
    }
  }

  // ---------------------------------------------------------------- the controller

  /** The agent's last noted sequence number, the batch number of the log store, and its tables. */
  datatype Server = Server(last: nat, batch: nat, tables: Tables)

  /** How the transaction ended; an unclear one was committed although an error is reported. */
  datatype Ending = Committed | RolledBack | Unclear

  /** One call of the handler: what is switched on, which nodes may be logged, and how the writes end. */
  datatype Handling = Handling(enabled: bool, allowed: set<int>, context: Context, ending: Ending, noted: bool)

  function Filtered(events: seq<Event>, allowed: set<int>): seq<Event> {
    if events == [] then []
    else
      var n := |events| - 1;
      Filtered(events[..n], allowed) + (if events[n].connection.node in allowed then [events[n]] else [])
  }

  function Ingest(s: Server, events: seq<Event>, sequence: nat, c: Context): Server {
    if events == [] || sequence <= s.batch then s
    else s.(tables := Inserted(s.tables, events, sequence, c), batch := sequence)
  }

  /** agentConnlog: the new server and the acknowledged number, if the call succeeds. */
  function Handle(s: Server, events: seq<Event>, sequence: nat, h: Handling): (Server, Option<nat>) {
    if !h.enabled then (s, Some(sequence))
    else if sequence <= s.last then (s, Some(s.last))
    else
      var i := Ingest(s, Filtered(events, h.allowed), sequence, h.context);
      match h.ending
      case RolledBack => (s, None)
      case Unclear => (i, None)
      case Committed => (if h.noted then i.(last := sequence) else i, Some(sequence))
  }

  // ---------------------------------------------------------------- the agent

  /** The queue, the sequence number in memory and in the file, events seen so far, and the controller. */
  datatype World = World(queue: seq<Event>, sequence: nat, file: nat, issued: nat, server: Server)

  function Numbered(found: seq<Connection>, from: nat): seq<Event> {
    seq(|found|, i requires 0 <= i < |found| => Event(from + i, found[i]))
  }

  function Skip<T>(s: seq<T>, n: nat): seq<T> { if n <= |s| then s[n..] else [] }

  function Min(a: nat, b: nat): nat { if a <= b then a else b }

  function Max(a: nat, b: nat): nat { if a <= b then b else a }

  /** New events enter at the back; the bounded queue gives up its oldest ones. */
  function Arrive(w: World, found: seq<Connection>, evicted: nat): World {
    w.(queue := Skip(w.queue + Numbered(found, w.issued), evicted), issued := w.issued + |found|)
  }

  function BatchSize(configured: int): (n: nat)
    ensures 1 <= n <= MAX_BATCH
    ensures 1 <= configured <= 500 ==> n == configured
    ensures configured <= 0 || configured > 500 ==> n == 500
  {
    if configured <= 0 then MAX_BATCH else Min(configured, MAX_BATCH)
  }

  datatype Link = RequestLost | Handled(handling: Handling, delivered: bool)

  /** One round: the batch size in force, what arrives while it is under way, and how it ends. */
  datatype Round = Round(
    batch: int, arrived: seq<Connection>, evicted: nat, link: Link, requeueLoss: nat, save: Save)

  function Restarted(w: World): World { w.(queue := [], sequence := w.file) }

  function Exchanged(w: World, events: seq<Event>, link: Link): (Server, Option<nat>) {
    match link
    case RequestLost => (w.server, None)
    case Handled(h, delivered) =>
      var (s, ack) := Handle(w.server, events, w.sequence + 1, h);
      (s, if delivered then ack else None)
  }

  /** Recording an acknowledgement; a failed save is ignored. */
  function Noted(w: World, ack: nat, save: Save): World {
    var n := Max(w.sequence + 1, ack);
    var v := w.(sequence := n, file := File(n, w.file, save));
    if save.Died() then Restarted(v) else v
  }

  /**
   An acknowledged number is spent for good, and the agent catches up with a controller
   that is ahead; a process that dies starts over with what the file holds.
   */
  lemma NotedCatchesUp(w: World, ack: nat, save: Save)
    ensures var v := Noted(w, ack, save);
            var n := if ack > w.sequence + 1 then ack else w.sequence + 1;
            && v.file == (if save.Written() then n else w.file)
            && (if save.Died() then v.sequence == v.file && v.queue == [] else v.sequence == n && v.queue == w.queue)
            && v.server == w.server
  {
  }

  /** One pass of connlogLoop that uploads. */
  function UploadRound(w: World, r: Round): World {
    if w.queue == [] then w
    else
      var n := Min(BatchSize(r.batch), |w.queue|);
      var events := w.queue[..n];
      var (server, ack) := Exchanged(w, events, r.link);
      var v := Arrive(w.(queue := w.queue[n..], server := server), r.arrived, r.evicted);
      match ack
      case None => v.(queue := Skip(events, r.requeueLoss) + v.queue)
      case Some(k) => Noted(v, k, r.save)
  }

  datatype Happening =
    | DoArrive(found: seq<Connection>, evicted: nat)
    | DoUpload(round: Round)
    | DoClear
    | DoRestart
    | DoEnroll

  /** A fresh enrolment starts counting again on the agent; the controller keeps its row of the agent. */
  function Enroll(w: World): World {
    w.(queue := [], sequence := 0, file := 0)
  }

  function Step(w: World, e: Happening): World {
    match e
    case DoArrive(found, evicted) => Arrive(w, found, evicted)
    case DoUpload(r) => UploadRound(w, r)
    case DoClear => w.(queue := [])
    case DoRestart => Restarted(w)
    case DoEnroll => Enroll(w)
  }

  function Fresh(): World { World([], 0, 0, 0, Server(0, 0, Tables([], map[]))) }

  function Run(events: seq<Happening>): World {
    if events == [] then Fresh() else Step(Run(events[..|events| - 1]), events[|events| - 1])
  }

  // ---------------------------------------------------------------- safety

  /** How far into the queue events reach that are already stored. */
  function Exposed(q: seq<Event>, stored: set<nat>): (k: nat)
    ensures k <= |q|
    ensures forall i :: k <= i < |q| ==> q[i].id !in stored
    ensures k > 0 ==> q[k - 1].id in stored
  {
    if q == [] then 0
    else if q[|q| - 1].id in stored then |q|
    else Exposed(q[..|q| - 1], stored)
  }

  lemma ExposedAtMost(q: seq<Event>, stored: set<nat>, k: nat)
    requires forall i :: k <= i < |q| ==> q[i].id !in stored
    ensures Exposed(q, stored) <= k
  {
  }

  /** The next upload will be answered as a duplicate. */
  predicate Spent(w: World) { w.sequence + 1 <= w.server.last || w.sequence + 1 <= w.server.batch }

  function Stored(w: World): set<nat> { RowIds(w.server.tables.rows) }

  ghost predicate Bounded(w: World) {
    && Distinct(w.queue)
    && (forall i :: 0 <= i < |w.queue| ==> w.queue[i].id < w.issued)
    && (forall x :: x in Stored(w) ==> x < w.issued)
  }

  /** `width` bounds the batch whose answer is outstanding. */
  ghost predicate Inv(w: World, width: nat) {
    && Bounded(w) && Unique(w.server.tables.rows) && Counted(w.server.tables)
    && Exposed(w.queue, Stored(w)) <= width
    && (Exposed(w.queue, Stored(w)) > 0 ==> Spent(w))
  }

  lemma IdsSnoc(events: seq<Event>, e: Event)
    ensures Ids(events + [e]) == Ids(events) + {e.id}
  {
    assert forall i :: 0 <= i < |events| ==> (events + [e])[i] == events[i];
    assert (events + [e])[|events|] == e;
  }

  lemma {:induction false} FilteredIds(events: seq<Event>, allowed: set<int>)
    ensures Ids(Filtered(events, allowed)) <= Ids(events)
  {
    if events != [] {
      var n := |events| - 1;
      FilteredIds(events[..n], allowed);
      IdsSnoc(events[..n], events[n]);
      assert events == events[..n] + [events[n]];
      IdsSnoc(Filtered(events[..n], allowed), events[n]);
    }
  }

  lemma {:induction false} FilteredDistinct(events: seq<Event>, allowed: set<int>)
    requires Distinct(events)
    ensures Distinct(Filtered(events, allowed))
  {
    if events != [] {
      var n := |events| - 1;
      var before := Filtered(events[..n], allowed);
      FilteredDistinct(events[..n], allowed);
      FilteredIds(events[..n], allowed);
      forall i | 0 <= i < |before|
        ensures before[i].id != events[n].id
      {
        assert before[i].id in Ids(events[..n]);
      }
    }
  }

  /** Exactly the events of allowed nodes pass. */
  lemma {:induction false} FilteredExactly(events: seq<Event>, allowed: set<int>, e: Event)
    ensures e in Filtered(events, allowed) <==> e in events && e.connection.node in allowed
  {
    if events != [] {
      var n := |events| - 1;
      FilteredExactly(events[..n], allowed, e);
      assert events == events[..n] + [events[n]];
    }
  }

  lemma {:induction false} FilteredAll(events: seq<Event>, allowed: set<int>)
    requires forall i :: 0 <= i < |events| ==> events[i].connection.node in allowed
    ensures Filtered(events, allowed) == events
  {
    if events != [] {
      FilteredAll(events[..|events| - 1], allowed);
    }
  }

  /** Ingest keeps the books: counters match, new events are stored once, nothing else appears. */
  lemma IngestKeeps(s: Server, events: seq<Event>, sequence: nat, c: Context)
    requires Unique(s.tables.rows) && Counted(s.tables) && Distinct(events)
    requires sequence > s.batch ==> Ids(events) !! RowIds(s.tables.rows)
    ensures var t := Ingest(s, events, sequence, c);
            && Unique(t.tables.rows) && Counted(t.tables)
            && RowIds(s.tables.rows) <= RowIds(t.tables.rows) <= RowIds(s.tables.rows) + Ids(events)
            && t.batch >= s.batch && t.last == s.last
            && (t.tables != s.tables ==> t.batch == sequence)
  {
    if events != [] && sequence > s.batch {
      InsertedUnique(s.tables, events, sequence, c);
      InsertedCounts(s.tables, events, sequence, c);
      InsertedIds(s.tables, events, sequence, c);
      HostedSnoc(events);
    }
  }

  lemma HandleKeeps(s: Server, events: seq<Event>, sequence: nat, h: Handling)
    requires Unique(s.tables.rows) && Counted(s.tables) && Distinct(events)
    requires sequence > s.last && sequence > s.batch ==> Ids(events) !! RowIds(s.tables.rows)
    ensures var t := Handle(s, events, sequence, h).0;
            && Unique(t.tables.rows) && Counted(t.tables)
            && RowIds(s.tables.rows) <= RowIds(t.tables.rows) <= RowIds(s.tables.rows) + Ids(events)
            && t.batch >= s.batch && t.last >= s.last
            && (t.tables != s.tables ==> t.batch == sequence)
  {
    FilteredIds(events, h.allowed);
    FilteredDistinct(events, h.allowed);
    if sequence > s.last {
      IngestKeeps(s, Filtered(events, h.allowed), sequence, h.context);
    }
  }

  /**
   Exactly when a new event is stored, which number the answer acknowledges, and when it
   is noted: a batch under a spent number is acknowledged without being looked at, and one
   is stored even if the answer is an error or the note fails.
   */
  lemma HandleStores(s: Server, events: seq<Event>, sequence: nat, h: Handling, e: Event)
    requires Distinct(events) && e in events && e.id !in RowIds(s.tables.rows)
    ensures var (t, ack) := Handle(s, events, sequence, h);
            && (e.id in RowIds(t.tables.rows) <==>
                 && h.enabled && sequence > s.last && sequence > s.batch && h.ending != RolledBack
                 && e.connection.node in h.allowed && e.connection.host != "")
            && ack == (if !h.enabled then Some(sequence)
                       else if sequence <= s.last then Some(s.last)
                       else if h.ending == Committed then Some(sequence) else None)
            && t.last == (if h.enabled && sequence > s.last && h.ending == Committed && h.noted then sequence else s.last)
  {
    var kept := Filtered(events, h.allowed);
    FilteredExactly(events, h.allowed, e);
    InsertedIds(s.tables, kept, sequence, h.context);
    forall i | 0 <= i < |kept| && kept[i].id == e.id
      ensures kept[i] == e
    {
      FilteredExactly(events, h.allowed, kept[i]);
    }
  }

  lemma ArriveKeeps(w: World, found: seq<Connection>, evicted: nat, width: nat)
    requires Inv(w, width)
    ensures Inv(Arrive(w, found, evicted), width)
    ensures forall e :: e in Arrive(w, found, evicted).queue ==> e in w.queue || e.id >= w.issued
  {
    var all := w.queue + Numbered(found, w.issued);
    var v := Arrive(w, found, evicted);
    assert Stored(v) == Stored(w);
    assert forall i :: 0 <= i < |v.queue| ==> v.queue[i] == all[i + evicted];
    ExposedAtMost(v.queue, Stored(w), Exposed(w.queue, Stored(w)));
  }

  lemma SplitDistinct(q: seq<Event>, n: nat)
    requires Distinct(q) && n <= |q|
    ensures Distinct(q[..n]) && Distinct(q[n..]) && Ids(q[..n]) !! Ids(q[n..])
  {
    forall i, j | 0 <= i < n && 0 <= j < |q| - n
      ensures q[..n][i].id != q[n..][j].id
    {
      assert q[n..][j] == q[n + j];
    }
  }

  lemma UnspentIsNew(w: World, n: nat, width: nat)
    requires Inv(w, width) && n <= |w.queue|
    ensures !Spent(w) ==> Ids(w.queue[..n]) !! Stored(w)
  {
    forall i | 0 <= i < n && !Spent(w)
      ensures w.queue[..n][i].id !in Stored(w)
    {
      assert w.queue[..n][i] == w.queue[i];
    }
  }

  /** What an exchange does to the controller when the batch covers everything exposed. */
  lemma ExchangedKeeps(w: World, n: nat, link: Link, width: nat)
    requires Inv(w, width) && n <= |w.queue|
    ensures var t := Exchanged(w, w.queue[..n], link).0;
            && Unique(t.tables.rows) && Counted(t.tables)
            && Stored(w) <= RowIds(t.tables.rows) <= Stored(w) + Ids(w.queue[..n])
            && t.last >= w.server.last && t.batch >= w.server.batch
            && (t.tables != w.server.tables ==> t.batch == w.sequence + 1)
  {
    SplitDistinct(w.queue, n);
    UnspentIsNew(w, n, width);
    if link.Handled? {
      HandleKeeps(w.server, w.queue[..n], w.sequence + 1, link.handling);
    }
  }

  function Taken(w: World, n: nat, link: Link): World
    requires n <= |w.queue|
  {
    w.(queue := w.queue[n..], server := Exchanged(w, w.queue[..n], link).0)
  }

  /** The part of the queue behind a batch that covers everything exposed is new to the controller. */
  lemma TakenKeeps(w: World, n: nat, link: Link, width: nat)
    requires Inv(w, width) && Exposed(w.queue, Stored(w)) <= n <= |w.queue|
    ensures Inv(Taken(w, n, link), 0)
  {
    ExchangedKeeps(w, n, link, width);
    SplitDistinct(w.queue, n);
    var v := Taken(w, n, link);
    forall i | 0 <= i < |v.queue|
      ensures v.queue[i].id !in Stored(v) && v.queue[i].id < v.issued
    {
      assert v.queue[i] == w.queue[n + i];
      assert v.queue[i].id in Ids(v.queue);
    }
    ExposedAtMost(v.queue, Stored(v), 0);
    forall x | x in Stored(v)
      ensures x < v.issued
    {
      if x in Ids(w.queue[..n]) {
        var i :| 0 <= i < n && w.queue[..n][i].id == x;
        assert w.queue[i].id == x;
      }
    }
  }

  /** Events given back to the front are the only ones that may be stored already. */
  lemma RequeueKeeps(v: World, events: seq<Event>, x: nat)
    requires Inv(v, 0) && Distinct(events) && (forall e :: e in events ==> e !in v.queue && e.id < v.issued)
    requires forall e, f :: e in events && f in v.queue ==> e.id != f.id
    requires (exists e :: e in events && e.id in Stored(v)) ==> Spent(v)
    ensures Inv(v.(queue := Skip(events, x) + v.queue), |events|)
  {
    var back := Skip(events, x);
    var q := back + v.queue;
    assert forall i :: 0 <= i < |back| ==> back[i] == events[i + x] && back[i] in events;
    assert forall i :: 0 <= i < |v.queue| ==> v.queue[i].id !in Stored(v);
    ExposedAtMost(q, Stored(v), |back|);
    var k := Exposed(q, Stored(v));
    if k > 0 {
      assert q[k - 1] == back[k - 1];
    }
  }

  predicate Answered(w: World, r: Round) {
    w.queue != [] && Exchanged(w, w.queue[..Min(BatchSize(r.batch), |w.queue|)], r.link).1.Some?
  }

  /** An event of the batch that is stored now makes the batch's number a spent one. */
  lemma StoredIsSpent(w: World, n: nat, link: Link, width: nat, e: Event)
    requires Inv(w, width) && n <= |w.queue| && e in w.queue[..n] && e.id in Stored(Taken(w, n, link))
    ensures Spent(Taken(w, n, link))
  {
    ExchangedKeeps(w, n, link, width);
    if e.id in Stored(w) {
      var i :| 0 <= i < n && w.queue[..n][i] == e;
      assert w.queue[i].id in Stored(w);
    }
  }

  lemma UnansweredKeeps(w: World, n: nat, r: Round, width: nat)
    requires Inv(w, width) && Exposed(w.queue, Stored(w)) <= n <= |w.queue|
    ensures var v := Arrive(Taken(w, n, r.link), r.arrived, r.evicted);
            Inv(v.(queue := Skip(w.queue[..n], r.requeueLoss) + v.queue), n)
  {
    var events := w.queue[..n];
    var taken := Taken(w, n, r.link);
    TakenKeeps(w, n, r.link, width);
    ArriveKeeps(taken, r.arrived, r.evicted, 0);
    SplitDistinct(w.queue, n);
    var v := Arrive(taken, r.arrived, r.evicted);
    forall e, f | e in events && f in v.queue
      ensures e.id != f.id
    {
      assert e.id in Ids(events);
      assert f in taken.queue ==> f.id in Ids(w.queue[n..]);
    }
    forall e | e in events && e.id in Stored(v)
      ensures Spent(v)
    {
      StoredIsSpent(w, n, r.link, width, e);
    }
    RequeueKeeps(v, events, r.requeueLoss);
  }

  lemma WiderKeeps(w: World, a: nat, b: nat)
    requires Inv(w, a) && a <= b
    ensures Inv(w, b)
  {
  }

  /** A round keeps the books if its batch is not smaller than an unanswered one before it. */
  lemma UploadKeeps(w: World, r: Round, width: nat)
    requires Inv(w, width) && BatchSize(r.batch) >= width
    ensures Inv(UploadRound(w, r), if Answered(w, r) then 0 else BatchSize(r.batch))
  {
    if w.queue == [] {
      WiderKeeps(w, width, BatchSize(r.batch));
    } else {
      var n := Min(BatchSize(r.batch), |w.queue|);
      if Answered(w, r) {
        TakenKeeps(w, n, r.link, width);
        ArriveKeeps(Taken(w, n, r.link), r.arrived, r.evicted, 0);
      } else {
        UnansweredKeeps(w, n, r, width);
        WiderKeeps(UploadRound(w, r), n, BatchSize(r.batch));
      }
    }
  }

  // ---------------------------------------------------------------- what every run promises

  /** The size of the last round if it got no answer. */
  function Outstanding(events: seq<Happening>): nat {
    if events == [] then 0
    else
      var n := |events| - 1;
      match events[n]
      case DoArrive(_, _) => Outstanding(events[..n])
      case DoUpload(r) => if Answered(Run(events[..n]), r) then 0 else BatchSize(r.batch)
      case _ => 0
  }

  /** No retry is smaller than the unanswered round it repeats; a constant batch size is enough for that. */
  predicate Patient(events: seq<Happening>) {
    events != [] ==>
      var n := |events| - 1;
      Patient(events[..n]) && (events[n].DoUpload? ==> BatchSize(events[n].round.batch) >= Outstanding(events[..n]))
  }

  lemma {:induction false} RunKeeps(events: seq<Happening>)
    requires Patient(events)
    ensures Inv(Run(events), Outstanding(events))
  {
    if events != [] {
      var n := |events| - 1;
      var w := Run(events[..n]);
      RunKeeps(events[..n]);
      match events[n]
      case DoArrive(found, evicted) => ArriveKeeps(w, found, evicted, Outstanding(events[..n]));
      case DoUpload(r) => UploadKeeps(w, r, Outstanding(events[..n]));
      case DoClear =>
      case DoRestart =>
      case DoEnroll =>
    }
  }

  /**
   Over every patient run, whatever is lost, retried or restarted: no event is stored
   twice and each daily counter is the number of raw rows with its key.
   */
  lemma StoredOnce(events: seq<Happening>)
    requires Patient(events)
    ensures var t := Run(events).server.tables;
            Unique(t.rows) && forall k: Key :: Hits(t.daily, k) == Count(t.rows, k)
  {
    RunKeeps(events);
  }

  lemma {:induction false} ConstantBatchIsPatient(events: seq<Happening>, batch: int)
    requires forall i :: 0 <= i < |events| && events[i].DoUpload? ==> events[i].round.batch == batch
    ensures Patient(events) && Outstanding(events) <= BatchSize(batch)
  {
    if events != [] {
      ConstantBatchIsPatient(events[..|events| - 1], batch);
    }
  }

  lemma HandleCounts(s: Server, events: seq<Event>, sequence: nat, h: Handling)
    requires Counted(s.tables)
    ensures Counted(Handle(s, events, sequence, h).0.tables)
  {
    InsertedCounts(s.tables, Filtered(events, h.allowed), sequence, h.context);
  }

  lemma ExchangeCounts(w: World, events: seq<Event>, link: Link)
    requires Counted(w.server.tables)
    ensures Counted(Exchanged(w, events, link).0.tables)
  {
    if link.Handled? {
      HandleCounts(w.server, events, w.sequence + 1, link.handling);
    }
  }

  lemma RoundTables(w: World, r: Round)
    requires w.queue != []
    ensures UploadRound(w, r).server == Exchanged(w, w.queue[..Min(BatchSize(r.batch), |w.queue|)], r.link).0
  {
  }

  lemma StepCounts(w: World, e: Happening)
    requires Counted(w.server.tables)
    ensures Counted(Step(w, e).server.tables)
  {
    if e.DoUpload? && w.queue != [] {
      RoundTables(w, e.round);
      ExchangeCounts(w, w.queue[..Min(BatchSize(e.round.batch), |w.queue|)], e.round.link);
    }
  }

  /** The daily counters match the raw rows over every run, patient or not. */
  lemma {:induction false} CountersMatchRows(events: seq<Happening>)
    ensures Counted(Run(events).server.tables)
  {
    if events != [] {
      CountersMatchRows(events[..|events| - 1]);
      StepCounts(Run(events[..|events| - 1]), events[|events| - 1]);
    }
  }

  // ---------------------------------------------------------------- retries that shrink

  /** A round in which everything works and nothing else happens. */
  function Plain(batch: int, h: Handling): Round { Round(batch, [], 0, Handled(h, true), 0, Saved) }

  predicate Working(h: Handling) { h.enabled && h.ending.Committed? }

  predicate Storable(q: seq<Event>, h: Handling) {
    forall i :: 0 <= i < |q| ==> q[i].connection.host != "" && q[i].connection.node in h.allowed
  }

  lemma PlainRound(w: World, batch: int, h: Handling)
    requires w.queue != [] && Working(h) && w.server.last <= w.sequence + 1 && w.server.batch <= w.sequence + 1
    ensures var n := Min(BatchSize(batch), |w.queue|);
            var v := UploadRound(w, Plain(batch, h));
            && v.queue == w.queue[n..] && v.sequence == w.sequence + 1
            && v.server == Handle(w.server, w.queue[..n], w.sequence + 1, h).0
            && v.server.last <= v.sequence && v.server.batch <= v.sequence
  {
    assert w.queue[Min(BatchSize(batch), |w.queue|)..] + Numbered([], w.issued) == w.queue[Min(BatchSize(batch), |w.queue|)..];
  }

  lemma HandledAgain(s: Server, events: seq<Event>, sequence: nat, h: Handling, k: nat)
    requires Working(h) && Storable(events, h) && s.last < sequence && s.batch < sequence
    requires k < |events| && events[k].id in RowIds(s.tables.rows)
    ensures !Unique(Handle(s, events, sequence, h).0.tables.rows)
  {
    FilteredAll(events, h.allowed);
    assert events[k].id in Hosted(events);
    if Unique(Inserted(s.tables, events, sequence, h.context).rows) {
      InsertedClash(s.tables, events, sequence, h.context);
    }
  }

  /** A round with a new number whose batch holds a stored event stores it again. */
  lemma StoresAgain(w: World, batch: int, h: Handling, k: nat)
    requires Working(h) && Storable(w.queue, h) && w.server.last <= w.sequence && w.server.batch <= w.sequence
    requires k < |w.queue| <= BatchSize(batch) && w.queue[k].id in Stored(w)
    ensures !Unique(UploadRound(w, Plain(batch, h)).server.tables.rows)
  {
    PlainRound(w, batch, h);
    assert w.queue[..|w.queue|] == w.queue;
    HandledAgain(w.server, w.queue, w.sequence + 1, h, k);
  }

  /**
   Exactly when a retry stores nothing twice. With numbers in step, a retry of `batch` events
   followed by a round that drains the queue stores nothing twice if and only if the
   retry covers every event of the queue that the controller already holds.
   */
  lemma RetrySafeIff(w: World, width: nat, batch: int, rest: int, h: Handling, g: Handling)
    requires Inv(w, width) && w.queue != [] && Working(h) && Working(g) && Storable(w.queue, g)
    requires w.server.last <= w.sequence + 1 && w.server.batch <= w.sequence + 1 && BatchSize(rest) >= |w.queue|
    ensures var v := UploadRound(UploadRound(w, Plain(batch, h)), Plain(rest, g));
            Unique(v.server.tables.rows) <==> BatchSize(batch) >= Exposed(w.queue, Stored(w))
  {
    var k := Exposed(w.queue, Stored(w));
    if BatchSize(batch) >= k {
      ExposedKeeps(w, width, k);
      UploadKeeps(w, Plain(batch, h), k);
      UploadKeeps(UploadRound(w, Plain(batch, h)), Plain(rest, g), if Answered(w, Plain(batch, h)) then 0 else BatchSize(batch));
    } else {
      ShortRetryStoresTwice(w, width, batch, rest, h, g);
    }
  }

  lemma ShortRetryStoresTwice(w: World, width: nat, batch: int, rest: int, h: Handling, g: Handling)
    requires Inv(w, width) && w.queue != [] && Working(h) && Working(g) && Storable(w.queue, g)
    requires w.server.last <= w.sequence + 1 && w.server.batch <= w.sequence + 1 && BatchSize(rest) >= |w.queue|
    requires BatchSize(batch) < Exposed(w.queue, Stored(w))
    ensures !Unique(UploadRound(UploadRound(w, Plain(batch, h)), Plain(rest, g)).server.tables.rows)
  {
    var u, j := ShortRetryLeaves(w, width, batch, h);
    assert forall i :: 0 <= i < |u.queue| ==> u.queue[i] in w.queue;
    StoresAgain(u, rest, g, j);
  }

  /** What a short retry leaves in the queue: event `j` is stored and will be sent under a new number. */
  lemma ShortRetryLeaves(w: World, width: nat, batch: int, h: Handling) returns (u: World, j: nat)
    requires Inv(w, width) && w.queue != [] && Working(h)
    requires w.server.last <= w.sequence + 1 && w.server.batch <= w.sequence + 1
    requires BatchSize(batch) < Exposed(w.queue, Stored(w))
    ensures u == UploadRound(w, Plain(batch, h)) && u.queue == w.queue[BatchSize(batch)..]
    ensures u.server.last <= u.sequence && u.server.batch <= u.sequence
    ensures j < |u.queue| && u.queue[j].id in Stored(u)
  {
    var k := Exposed(w.queue, Stored(w));
    PlainRound(w, batch, h);
    PlainRoundKeepsRows(w, width, batch, h);
    u, j := UploadRound(w, Plain(batch, h)), k - 1 - BatchSize(batch);
    StoredBehind(w.queue, Stored(w), BatchSize(batch), j);
  }

  lemma StoredBehind(q: seq<Event>, stored: set<nat>, n: nat, j: nat)
    requires n + j < |q| && q[n + j].id in stored
    ensures q[n..][j].id in stored
  {
  }

  lemma PlainRoundKeepsRows(w: World, width: nat, batch: int, h: Handling)
    requires Inv(w, width) && w.queue != []
    ensures Stored(w) <= Stored(UploadRound(w, Plain(batch, h)))
  {
    ExchangedKeeps(w, Min(BatchSize(batch), |w.queue|), Handled(h, true), width);
  }

  lemma ExposedKeeps(w: World, width: nat, k: nat)
    requires Inv(w, width) && k == Exposed(w.queue, Stored(w))
    ensures Inv(w, k)
  {
  }

  // ---------------------------------------------------------------- what the agent can check

  /** An upload that reached a working controller under an unspent number, and whose answer was lost. */
  predicate StoredUnanswered(w: World, r: Round) {
    && w.queue != [] && !Spent(w) && r.link.Handled? && !r.link.delivered
    && r.link.handling.enabled && !r.link.handling.ending.RolledBack?
    && Storable(w.queue, r.link.handling)
  }

  lemma StorableHosted(events: seq<Event>, h: Handling)
    requires Storable(events, h)
    ensures Hosted(events) == Ids(events)
  {
  }

  lemma IngestStores(s: Server, events: seq<Event>, sequence: nat, c: Context)
    requires events != [] && s.batch < sequence
    ensures var t := Ingest(s, events, sequence, c);
            RowIds(t.tables.rows) == RowIds(s.tables.rows) + Hosted(events) && t.batch == sequence && t.last == s.last
  {
    InsertedIds(s.tables, events, sequence, c);
  }

  lemma HandleIngests(s: Server, events: seq<Event>, sequence: nat, h: Handling)
    requires s.last < sequence && h.enabled && !h.ending.RolledBack?
    ensures var i := Ingest(s, Filtered(events, h.allowed), sequence, h.context);
            Handle(s, events, sequence, h).0 in {i, i.(last := sequence)}
  {
  }

  /** What such a round leaves: the controller holds the batch under the spent number. */
  lemma UnansweredStores(s: Server, events: seq<Event>, sequence: nat, h: Handling)
    requires events != [] && s.last < sequence && s.batch < sequence
    requires h.enabled && !h.ending.RolledBack? && Storable(events, h)
    ensures var t := Handle(s, events, sequence, h).0;
            RowIds(t.tables.rows) == RowIds(s.tables.rows) + Ids(events) && t.batch == sequence && t.last <= sequence
  {
    StorableHosted(events, h);
    IngestStores(s, events, sequence, h.context);
    var i := Ingest(s, events, sequence, h.context);
    FilteredAll(events, h.allowed);
    HandleIngests(s, events, sequence, h);
    assert Handle(s, events, sequence, h).0.tables == i.tables;
  }

  lemma ExposedExactly(q: seq<Event>, stored: set<nat>, k: nat)
    requires k <= |q| && (k > 0 ==> q[k - 1].id in stored) && forall i :: k <= i < |q| ==> q[i].id !in stored
    ensures Exposed(q, stored) == k
  {
  }

  /** The queue after an unanswered round: what was put back, then what the controller has not seen. */
  lemma PutBackExposed(back: seq<Event>, rest: seq<Event>, stored: set<nat>)
    requires (forall e :: e in back ==> e.id in stored) && (forall e :: e in rest ==> e.id !in stored)
    ensures Exposed(back + rest, stored) == |back|
  {
    var q, k := back + rest, |back|;
    assert forall i :: k <= i < |q| ==> q[i] == rest[i - k];
    if k > 0 {
      assert q[k - 1] == back[k - 1];
    }
    ExposedExactly(q, stored, k);
  }

  /** The part of the queue that was not taken is unknown to the controller. */
  lemma RestUnknown(w: World, n: nat, r: Round, width: nat)
    requires Inv(w, width) && Exposed(w.queue, Stored(w)) <= n <= |w.queue|
    ensures var v := Arrive(Taken(w, n, r.link), r.arrived, r.evicted); forall e :: e in v.queue ==> e.id !in Stored(v)
  {
    TakenKeeps(w, n, r.link, width);
    ArriveKeeps(Taken(w, n, r.link), r.arrived, r.evicted, 0);
  }

  /** The controller after such a round holds everything that is put back. */
  lemma PutBackStored(w: World, n: nat, r: Round)
    requires StoredUnanswered(w, r) && 0 < n <= |w.queue|
    ensures var s := Exchanged(w, w.queue[..n], r.link).0;
            && (forall e :: e in Skip(w.queue[..n], r.requeueLoss) ==> e.id in RowIds(s.tables.rows))
            && s.batch == w.sequence + 1 && s.last <= w.sequence + 1
  {
    var events := w.queue[..n];
    assert forall i :: 0 <= i < n ==> events[i] == w.queue[i];
    UnansweredStores(w.server, events, w.sequence + 1, r.link.handling);
    var s := Exchanged(w, events, r.link).0;
    forall e | e in Skip(events, r.requeueLoss)
      ensures e.id in RowIds(s.tables.rows)
    {
      assert e in events && e.id in Ids(events);
    }
  }

  /**
   After an unanswered upload of n events that the controller stored, exactly the
   requeued ones are exposed: a number the agent knows.
   */
  lemma ExposedIsRequeued(w: World, r: Round, width: nat)
    requires Inv(w, width) && StoredUnanswered(w, r)
    ensures var n := Min(BatchSize(r.batch), |w.queue|);
            var v := UploadRound(w, r);
            && Inv(v, n) && Exposed(v.queue, Stored(v)) == n - Min(r.requeueLoss, n)
            && v.sequence == w.sequence && v.server.batch == w.sequence + 1 && v.server.last <= w.sequence + 1
            && n - Min(r.requeueLoss, n) <= |v.queue|
            && (forall i :: 0 <= i < n - Min(r.requeueLoss, n) ==> v.queue[i].id in Stored(v))
  {
    var n := Min(BatchSize(r.batch), |w.queue|);
    UnansweredKeeps(w, n, r, width);
    RestUnknown(w, n, r, width);
    PutBackStored(w, n, r);
    var rest := Arrive(Taken(w, n, r.link), r.arrived, r.evicted);
    PutBackExposed(Skip(w.queue[..n], r.requeueLoss), rest.queue, Stored(rest));
    forall i | 0 <= i < n - Min(r.requeueLoss, n)
      ensures UploadRound(w, r).queue[i].id in Stored(rest)
    {
      assert UploadRound(w, r).queue[i] in Skip(w.queue[..n], r.requeueLoss);
    }
  }

  /** Every event of the queue is stored or still queued. */
  ghost predicate Lossless(before: World, after: World) {
    forall i :: 0 <= i < |before.queue| ==> before.queue[i].id in Stored(after) || before.queue[i] in after.queue
  }

  /** A retry under a spent number is acknowledged without storing anything. */
  lemma SpentRound(v: World, batch: int, h: Handling)
    requires v.queue != [] && Working(h) && Spent(v)
    ensures var u := UploadRound(v, Plain(batch, h));
            u.queue == v.queue[Min(BatchSize(batch), |v.queue|)..] && Stored(u) == Stored(v)
  {
    var n := Min(BatchSize(batch), |v.queue|);
    assert v.queue[n..] + Numbered([], v.issued) == v.queue[n..];
  }

  /** Of distinct events the first k of which are stored, taking m leaves none behind exactly up to m == k. */
  lemma SurplusGone(q: seq<Event>, stored: set<nat>, k: nat, m: nat)
    requires Distinct(q) && k <= |q| && m <= |q|
    requires (forall i :: 0 <= i < k ==> q[i].id in stored) && (forall i :: k <= i < |q| ==> q[i].id !in stored)
    ensures forall i :: k <= i < m ==> q[i] !in q[m..]
    ensures (forall i :: 0 <= i < |q| ==> q[i].id in stored || q[i] in q[m..]) <==> m <= k
  {
    forall i | m <= i < |q|
      ensures q[i] in q[m..]
    {
      assert q[m..][i - m] == q[i];
    }
    forall i | k <= i < m
      ensures q[i] !in q[m..]
    {
      forall j | 0 <= j < |q| - m
        ensures q[m..][j] != q[i]
      {
        assert q[m..][j] == q[m + j];
      }
    }
    if m > k {
      assert q[k].id !in stored && q[k] !in q[m..];
    }
  }

  /** Of a queue whose first k events are stored, such a retry loses what it takes beyond them. */
  lemma SpentRoundLosesIff(v: World, width: nat, batch: int, h: Handling, k: nat)
    requires Inv(v, width) && v.queue != [] && Working(h) && Spent(v)
    requires k == Exposed(v.queue, Stored(v)) && forall i :: 0 <= i < k ==> v.queue[i].id in Stored(v)
    ensures var m := Min(BatchSize(batch), |v.queue|);
            var u := UploadRound(v, Plain(batch, h));
            && (Lossless(v, u) <==> m <= k)
            && (forall i :: k <= i < m ==> v.queue[i].id !in Stored(u) && v.queue[i] !in u.queue)
  {
    SpentRound(v, batch, h);
    SurplusGone(v.queue, Stored(v), k, Min(BatchSize(batch), |v.queue|));
  }

  /**
   Exactly when a retry stores nothing twice and loses nothing either: after an upload
   whose answer was lost although the controller stored it, it must take exactly what
   was put back. A smaller one stores events twice, a larger one loses the surplus.
   */
  lemma RetryExactIff(w: World, r: Round, width: nat, batch: int, rest: int, h: Handling, g: Handling)
    requires Inv(w, width) && StoredUnanswered(w, r)
    requires var v := UploadRound(w, r);
             v.queue != [] && Working(h) && Working(g) && Storable(v.queue, g) && BatchSize(rest) >= |v.queue|
    ensures var n := Min(BatchSize(r.batch), |w.queue|);
            var v := UploadRound(w, r);
            var u := UploadRound(v, Plain(batch, h));
            Unique(UploadRound(u, Plain(rest, g)).server.tables.rows) && Lossless(v, u) <==>
              Min(BatchSize(batch), |v.queue|) == n - Min(r.requeueLoss, n)
  {
    var n := Min(BatchSize(r.batch), |w.queue|);
    ExposedIsRequeued(w, r, width);
    RetryAfterLostAnswerIff(w, r, width, batch, rest, h, g);
    SpentRoundLosesIff(UploadRound(w, r), n, batch, h, n - Min(r.requeueLoss, n));
  }

  /**
   Exactly when a retry stores nothing twice, in what the agent knows: after an upload whose answer
   was lost although the controller stored it, a retry of `batch` events followed by a
   round that drains the queue stores nothing twice if and only if the retry is at
   least as large as what was put back.
   */
  lemma RetryAfterLostAnswerIff(w: World, r: Round, width: nat, batch: int, rest: int, h: Handling, g: Handling)
    requires Inv(w, width) && StoredUnanswered(w, r)
    requires var v := UploadRound(w, r);
             v.queue != [] && Working(h) && Working(g) && Storable(v.queue, g) && BatchSize(rest) >= |v.queue|
    ensures var n := Min(BatchSize(r.batch), |w.queue|);
            var v := UploadRound(UploadRound(UploadRound(w, r), Plain(batch, h)), Plain(rest, g));
            Unique(v.server.tables.rows) <==> BatchSize(batch) >= n - Min(r.requeueLoss, n)
  {
    var n := Min(BatchSize(r.batch), |w.queue|);
    ExposedIsRequeued(w, r, width);
    RetrySafeIff(UploadRound(w, r), n, batch, rest, h, g);
  }

  lemma NoneExposed(back: seq<Event>, rest: seq<Event>, stored: set<nat>)
    requires (forall e :: e in back ==> e.id !in stored) && (forall e :: e in rest ==> e.id !in stored)
    ensures Exposed(back + rest, stored) == 0
  {
    var q := back + rest;
    forall i | 0 <= i < |q|
      ensures q[i].id !in stored
    {
      assert q[i] in back || q[i] in rest;
    }
    ExposedExactly(q, stored, 0);
  }

  /** If the upload never reached the controller nothing is exposed. */
  lemma LostRequestExposesNothing(w: World, r: Round, width: nat)
    requires Inv(w, width) && Exposed(w.queue, Stored(w)) == 0 && r.link.RequestLost?
    ensures Exposed(UploadRound(w, r).queue, Stored(UploadRound(w, r))) == 0
  {
    if w.queue != [] {
      var n := Min(BatchSize(r.batch), |w.queue|);
      RestUnknown(w, n, r, width);
      var back, rest := Skip(w.queue[..n], r.requeueLoss), Arrive(Taken(w, n, r.link), r.arrived, r.evicted);
      assert forall e :: e in back ==> e in w.queue;
      NoneExposed(back, rest.queue, Stored(w));
    }
  }

  /** Then a retry of any size, followed by a round that drains the queue, stores nothing twice. */
  lemma RetryAfterLostRequest(w: World, r: Round, width: nat, batch: int, rest: int, h: Handling, g: Handling)
    requires Inv(w, width) && Exposed(w.queue, Stored(w)) == 0 && r.link.RequestLost? && w.queue != []
    requires w.server.last <= w.sequence + 1 && w.server.batch <= w.sequence + 1
    requires var v := UploadRound(w, r);
             v.queue != [] && Working(h) && Working(g) && Storable(v.queue, g) && BatchSize(rest) >= |v.queue|
    ensures Unique(UploadRound(UploadRound(UploadRound(w, r), Plain(batch, h)), Plain(rest, g)).server.tables.rows)
  {
    var n := Min(BatchSize(r.batch), |w.queue|);
    LostRequestExposesNothing(w, r, width);
    UnansweredKeeps(w, n, r, width);
    RetrySafeIff(UploadRound(w, r), n, batch, rest, h, g);
  }

  function Pair(c: Connection): seq<Event> { [Event(0, c), Event(1, c)] }

  lemma HandledPair(c: Connection, h: Handling)
    requires Working(h) && c.host != "" && c.node in h.allowed
    ensures var s := Handle(Fresh().server, Pair(c), 1, h).0;
            RowIds(s.tables.rows) == {0, 1} && s.last <= 1 && s.batch <= 1
  {
    FilteredAll(Pair(c), h.allowed);
    InsertedIds(Fresh().server.tables, Pair(c), 1, h.context);
    assert Pair(c)[0].id in Hosted(Pair(c)) && Pair(c)[1].id in Hosted(Pair(c));
  }

  lemma LostRound(w: World, h: Handling)
    requires |w.queue| == 2
    ensures UploadRound(w, Plain(2, h).(link := Handled(h, false))) == w.(server := Handle(w.server, w.queue, w.sequence + 1, h).0)
  {
    assert w.queue[..2] == w.queue && w.queue[2..] == [] && w.queue[0..] + [] == w.queue;
  }

  /** Two events are stored as one batch and the answer is lost. */
  lemma LostAnswer(c: Connection, h: Handling) returns (w: World)
    requires Working(h) && c.host != "" && c.node in h.allowed
    ensures w == UploadRound(Arrive(Fresh(), [c, c], 0), Plain(2, h).(link := Handled(h, false)))
    ensures Inv(w, 2) && w.queue == Pair(c) && Stored(w) == {0, 1}
    ensures w.sequence == 0 && w.server.last <= 1 && w.server.batch <= 1
  {
    var v := Arrive(Fresh(), [c, c], 0);
    assert v == Fresh().(queue := Pair(c), issued := 2);
    var r := Plain(2, h).(link := Handled(h, false));
    ArriveKeeps(Fresh(), [c, c], 0, 0);
    UploadKeeps(v, r, 0);
    w := UploadRound(v, r);
    LostRound(v, h);
    HandledPair(c, h);
    WiderKeeps(w, if Answered(v, r) then 0 else BatchSize(r.batch), 2);
  }

  // ---------------------------------------------------------------- numbers that fall behind

  lemma HandledIds(s: Server, events: seq<Event>, sequence: nat, h: Handling)
    ensures RowIds(Handle(s, events, sequence, h).0.tables.rows) <= RowIds(s.tables.rows) + Ids(events)
  {
    var kept := Filtered(events, h.allowed);
    FilteredIds(events, h.allowed);
    InsertedIds(s.tables, kept, sequence, h.context);
    if kept != [] {
      HostedSnoc(kept);
    }
  }

  /** Everything queued or stored was numbered before. */
  ghost predicate Issued(w: World) {
    (forall e :: e in w.queue ==> e.id < w.issued) && (forall x :: x in Stored(w) ==> x < w.issued)
  }

  lemma ArriveIssued(w: World, found: seq<Connection>, evicted: nat)
    requires Issued(w)
    ensures Issued(Arrive(w, found, evicted))
  {
    var v := Arrive(w, found, evicted);
    assert Stored(v) == Stored(w);
    forall e | e in v.queue
      ensures e.id < v.issued
    {
      if e !in w.queue {
        assert e in Numbered(found, w.issued);
      }
    }
  }

  lemma TakenIssued(w: World, n: nat, link: Link)
    requires Issued(w) && n <= |w.queue|
    ensures Issued(Taken(w, n, link)) && forall e :: e in w.queue[..n] ==> e.id < w.issued
  {
    var v := Taken(w, n, link);
    if link.Handled? {
      HandledIds(w.server, w.queue[..n], w.sequence + 1, link.handling);
    }
    assert Stored(v) <= Stored(w) + Ids(w.queue[..n]);
    forall x | x in Ids(w.queue[..n])
      ensures x < w.issued
    {
      var i :| 0 <= i < n && w.queue[..n][i].id == x;
      assert w.queue[i] in w.queue;
    }
  }

  lemma PutBackIssued(v: World, events: seq<Event>, x: nat)
    requires Issued(v) && forall e :: e in events ==> e.id < v.issued
    ensures Issued(v.(queue := Skip(events, x) + v.queue))
  {
    var u := v.(queue := Skip(events, x) + v.queue);
    assert Stored(u) == Stored(v);
    assert forall e :: e in Skip(events, x) ==> e in events;
  }

  lemma NotedIssued(v: World, ack: nat, save: Save)
    requires Issued(v)
    ensures Issued(Noted(v, ack, save))
  {
    assert Stored(Noted(v, ack, save)) == Stored(v);
  }

  lemma UploadIssued(w: World, r: Round)
    requires Issued(w)
    ensures Issued(UploadRound(w, r))
  {
    if w.queue != [] {
      var n := Min(BatchSize(r.batch), |w.queue|);
      var t := Taken(w, n, r.link);
      TakenIssued(w, n, r.link);
      ArriveIssued(t, r.arrived, r.evicted);
      var v := Arrive(t, r.arrived, r.evicted);
      match Exchanged(w, w.queue[..n], r.link).1
      case None => PutBackIssued(v, w.queue[..n], r.requeueLoss);
      case Some(k) => NotedIssued(v, k, r.save);
    }
  }

  lemma {:induction false} RunIssued(events: seq<Happening>)
    ensures Issued(Run(events))
  {
    if events != [] {
      var n := |events| - 1;
      var w := Run(events[..n]);
      RunIssued(events[..n]);
      match events[n]
      case DoArrive(found, evicted) => ArriveIssued(w, found, evicted);
      case DoUpload(r) => UploadIssued(w, r);
      case _ => assert Stored(Step(w, events[n])) == Stored(w);
    }
  }

  /** Whatever is taken under an unspent number is stored, if it may be. */
  lemma UnspentRound(v: World, batch: int, h: Handling)
    requires v.queue != [] && Working(h) && Storable(v.queue, h) && !Spent(v)
    ensures var n := Min(BatchSize(batch), |v.queue|);
            var u := UploadRound(v, Plain(batch, h));
            u.queue == v.queue[n..] && Stored(u) == Stored(v) + Ids(v.queue[..n])
  {
    var n := Min(BatchSize(batch), |v.queue|);
    var events := v.queue[..n];
    PlainRound(v, batch, h);
    assert Storable(events, h);
    FilteredAll(events, h.allowed);
    StorableHosted(events, h);
    IngestStores(v.server, events, v.sequence + 1, h.context);
    HandleIngests(v.server, events, v.sequence + 1, h);
  }

  /**
   A round of events the controller has never seen, in which everything works, loses some
   of them if and only if the number it goes out under was used before. The numbers in
   the controller come from its row of the agent and from its log store.
   */
  lemma FreshRoundLosesIff(v: World, batch: int, h: Handling)
    requires Distinct(v.queue) && v.queue != [] && Working(h) && Storable(v.queue, h)
    requires forall i :: 0 <= i < |v.queue| ==> v.queue[i].id !in Stored(v)
    ensures Lossless(v, UploadRound(v, Plain(batch, h))) <==>
      v.sequence >= v.server.last && v.sequence >= v.server.batch
  {
    var n := Min(BatchSize(batch), |v.queue|);
    var u := UploadRound(v, Plain(batch, h));
    if Spent(v) {
      SpentRound(v, batch, h);
      SurplusGone(v.queue, Stored(v), 0, n);
    } else {
      UnspentRound(v, batch, h);
      forall i | 0 <= i < |v.queue|
        ensures v.queue[i].id in Stored(u) || v.queue[i] in u.queue
      {
        if i < n {
          assert v.queue[..n][i].id in Ids(v.queue[..n]);
        } else {
          assert v.queue[n..][i - n] == v.queue[i];
        }
      }
    }
  }

  /** The queue of an agent that starts with nothing and reads these connections. */
  lemma FreshQueue(w: World, found: seq<Connection>, h: Handling)
    requires Issued(w) && w.queue == [] && forall c :: c in found ==> c.host != "" && c.node in h.allowed
    ensures var v := Arrive(w, found, 0);
            && v.queue == Numbered(found, w.issued) && Distinct(v.queue) && Storable(v.queue, h)
            && forall i :: 0 <= i < |v.queue| ==> v.queue[i].id !in Stored(v)
  {
    var v := Arrive(w, found, 0);
    assert [] + Numbered(found, w.issued) == Numbered(found, w.issued);
    assert Stored(v) == Stored(w);
    assert forall i :: 0 <= i < |found| ==> v.queue[i].connection == found[i] && found[i] in found;
  }

  /**
   After any run: an agent that is enrolled again loses events of its first upload if and
   only if the controller ever noted or stored a batch of the earlier enrolment.
   */
  lemma EnrolmentLosesIff(events: seq<Happening>, found: seq<Connection>, batch: int, h: Handling)
    requires found != [] && Working(h) && forall c :: c in found ==> c.host != "" && c.node in h.allowed
    ensures var w := Run(events);
            var v := Arrive(Enroll(w), found, 0);
            Lossless(v, UploadRound(v, Plain(batch, h))) <==> w.server.last == 0 && w.server.batch == 0
  {
    RunIssued(events);
    var w := Enroll(Run(events));
    assert Stored(w) == Stored(Run(events));
    FreshQueue(w, found, h);
    FreshRoundLosesIff(Arrive(w, found, 0), batch, h);
  }

  /**
   After any run: an agent that restarts from its state file loses events of its first
   upload if and only if the file is behind a number the controller noted or stored.
   */
  lemma RestartLosesIff(events: seq<Happening>, found: seq<Connection>, batch: int, h: Handling)
    requires found != [] && Working(h) && forall c :: c in found ==> c.host != "" && c.node in h.allowed
    ensures var w := Run(events);
            var v := Arrive(Restarted(w), found, 0);
            Lossless(v, UploadRound(v, Plain(batch, h))) <==> w.file >= w.server.last && w.file >= w.server.batch
  {
    RunIssued(events);
    var w := Restarted(Run(events));
    assert Stored(w) == Stored(Run(events));
    FreshQueue(w, found, h);
    FreshRoundLosesIff(Arrive(w, found, 0), batch, h);
  }

  lemma RunSnoc(events: seq<Happening>, e: Happening)
    ensures Run(events + [e]) == Step(Run(events), e)
  {
    assert (events + [e])[..|events|] == events;
  }

  lemma OneUploaded(c: Connection, h: Handling)
    requires Working(h) && h.noted
    ensures var w := UploadRound(Arrive(Fresh(), [c], 0), Plain(1, h));
            w.queue == [] && w.issued == 1 && w.server.last == 1 && Stored(w) <= {0}
  {
    var one := Arrive(Fresh(), [c], 0);
    assert one.queue == [Event(0, c)] && one.queue[..1] == one.queue;
    PlainRound(one, 1, h);
    HandledIds(Fresh().server, one.queue, 1, h);
  }

  /** One event is read and uploaded, the agent is enrolled again and reads another one. */
  function Reenrolled(c: Connection, h: Handling): seq<Happening> {
    [DoArrive([c], 0), DoUpload(Plain(1, h)), DoEnroll, DoArrive([c], 0)]
  }

  lemma RunOfFour(a: Happening, b: Happening, c: Happening, d: Happening)
    ensures Run([a, b, c, d]) == Step(Step(Step(Step(Fresh(), a), b), c), d)
  {
    RunSnoc([], a);
    RunSnoc([a], b);
    RunSnoc([a, b], c);
    RunSnoc([a, b, c], d);
    assert [] + [a] == [a] && [a] + [b] == [a, b] && [a, b] + [c] == [a, b, c] && [a, b, c] + [d] == [a, b, c, d];
  }

  /** The next event of an agent enrolled again is acknowledged but never stored. */
  lemma EnrolmentLoses(c: Connection, h: Handling)
    requires Working(h) && h.noted
    ensures var w := Run(Reenrolled(c, h));
            var u := UploadRound(w, Plain(1, h));
            w.queue == [Event(1, c)] && 1 !in Stored(u) && u.queue == []
  {
    var a := DoArrive([c], 0);
    RunOfFour(a, DoUpload(Plain(1, h)), DoEnroll, a);
    OneUploaded(c, h);
    var w := Run(Reenrolled(c, h));
    assert w == Arrive(Enroll(UploadRound(Arrive(Fresh(), [c], 0), Plain(1, h))), [c], 0);
    assert w.queue == [Event(1, c)] && Spent(w);
    SpentRound(w, 1, h);
  }

  /** A batch of two whose answer is lost, retried one event first, is stored twice in part. */
  lemma ShrinkingRetryFails(c: Connection, h: Handling)
    requires Working(h) && c.host != "" && c.node in h.allowed
    ensures var w := UploadRound(Arrive(Fresh(), [c, c], 0), Plain(2, h).(link := Handled(h, false)));
            !Unique(UploadRound(UploadRound(w, Plain(1, h)), Plain(2, h)).server.tables.rows)
  {
    var w := LostAnswer(c, h);
    assert w.queue[1].id in Stored(w);
    ShortRetryStoresTwice(w, 2, 1, 2, h, h);
  }

  // ---------------------------------------------------------------- the running parts

  /** The connection log of one server. */
  class Store {
    var rows: seq<Row>
    var daily: map<Key, nat>
    var batch: nat

    ghost function Contents(): Tables
      reads this
    {
      Tables(rows, daily)
    }

    constructor ()
      ensures Contents() == Fresh().server.tables && batch == 0
    {
      rows, daily, batch := [], map[], 0;
    }

    /** One transaction: nothing remains of it when it is rolled back. */
    method IngestBatch(events: seq<Event>, sequence: nat, c: Context, ending: Ending)
      modifies this
      ensures var before := Server(0, old(batch), old(Contents()));
              var after := if ending.RolledBack? then before else Ingest(before, events, sequence, c);
              Contents() == after.tables && batch == after.batch
    {
      if |events| == 0 || sequence <= batch {
        return;
      }
      var r: seq<Row>, d: map<Key, nat> := rows, daily;
      for i := 0 to |events|
        invariant unchanged(this)
        invariant Tables(r, d) == Inserted(Contents(), events[..i], sequence, c)
      {
        assert events[..i + 1][..i] == events[..i];
        if events[i].connection.host != "" {
          var row := RowOf(events[i], sequence, c);
          r := r + [row];
          var key := KeyOf(row);
          d := d[key := Hits(d, key) + 1];
        }
      }
      assert events[..|events|] == events;
      if ending.RolledBack? {
        return;
      }
      rows, daily, batch := r, d, sequence;
    }
  }

  method FilterEvents(events: seq<Event>, allowed: set<int>) returns (out: seq<Event>)
    ensures out == Filtered(events, allowed)
  {
    out := [];
    for i := 0 to |events|
      invariant out == Filtered(events[..i], allowed)
    {
      assert events[..i + 1][..i] == events[..i];
      if events[i].connection.node in allowed {
        out := out + [events[i]];
      }
    }
    assert events[..|events|] == events;
  }

  lemma TwoTakes(q: seq<Event>, k: nat, m: nat)
    requires k + m <= |q|
    ensures q[..k] + q[k..][..m] == q[..k + m] && q[k..][m..] == q[k + m..]
  {
  }

  /** The controller's handler and the agent's loop body around one store. */
  class Pipeline {
    const store: Store
    var last: nat
    var queue: seq<Event>
    var sequence: nat
    var file: nat
    var issued: nat

    ghost function Now(): World
      reads this, store
    {
      World(queue, sequence, file, issued, Server(last, store.batch, store.Contents()))
    }

    constructor ()
      ensures Now() == Fresh() && fresh(store)
    {
      store := new Store();
      last, queue, sequence, file, issued := 0, [], 0, 0, 0;
    }

    method AgentConnlog(events: seq<Event>, number: nat, h: Handling) returns (ack: Option<nat>)
      modifies this`last, store
      ensures Now().server == Handle(old(Now().server), events, number, h).0
      ensures ack == Handle(old(Now().server), events, number, h).1
    {
      if !h.enabled {
        return Some(number);
      }
      if number <= last {
        return Some(last);
      }
      var filtered := FilterEvents(events, h.allowed);
      store.IngestBatch(filtered, number, h.context, h.ending);
      if !h.ending.Committed? {
        return None;
      }
      if h.noted {
        last := number;
      }
      return Some(number);
    }

    method Exchange(events: seq<Event>, link: Link) returns (ack: Option<nat>)
      modifies this`last, store
      ensures Now().server == Exchanged(old(Now()), events, link).0 && ack == Exchanged(old(Now()), events, link).1
    {
      if link.RequestLost? {
        return None;
      }
      ack := AgentConnlog(events, sequence + 1, link.handling);
      if !link.delivered {
        ack := None;
      }
    }

    method Found(found: seq<Connection>, evicted: nat)
      modifies this`queue, this`issued
      ensures Now() == Arrive(old(Now()), found, evicted)
    {
      queue := Skip(queue + Numbered(found, issued), evicted);
      issued := issued + |found|;
    }

    method Record(ack: nat, save: Save)
      modifies this`queue, this`sequence, this`file
      ensures Now() == Noted(old(Now()), ack, save)
    {
      sequence := Max(sequence + 1, ack);
      file := File(sequence, file, save);
      if save.Died() {
        queue, sequence := [], file;
      }
    }

    /** Half of the batch first, then the rest of it, from the one shared queue. */
    method TakeBatch(size: nat) returns (events: seq<Event>)
      requires size >= 1
      modifies this`queue
      ensures var n := Min(size, |old(queue)|); events == old(queue)[..n] && queue == old(queue)[n..]
    {
      ghost var q := queue;
      var k := Min(Max(1, size / 2), |queue|);
      events, queue := queue[..k], queue[k..];
      if k < size {
        var m := Min(size - k, |queue|);
        TwoTakes(q, k, m);
        events, queue := events + queue[..m], queue[m..];
      }
    }

    method UploadOnce(r: Round)
      modifies this, store
      ensures Now() == UploadRound(old(Now()), r)
    {
      if |queue| == 0 {
        return;
      }
      ghost var w := Now();
      var events := TakeBatch(BatchSize(r.batch));
      var ack := Exchange(events, r.link);
      Found(r.arrived, r.evicted);
      if ack.None? {
        queue := Skip(events, r.requeueLoss) + queue;
      } else {
        Record(ack.value, r.save);
      }
      assert Now() == UploadRound(w, r);
    }
  }
}
