/** bench/fleet_priority.py, `rank`: the order of the waiting tickets at a free fleet boundary. */
module FleetPriority {
  import opened Sorting
  import opened Wrappers

  /** One line of the queue file, split and converted; a line that does not convert is malformed. */
  datatype Line = Ticket(session: string, created: real, declared: real, kind: string) | Malformed

  /** SMALL_MAX_MIN, BATCH_CAP_MIN and STARVE_S; AGED_S is fixed. */
  datatype Policy = Policy(smallMax: real, batchCap: real, starve: real)

  const AGED := 1800.0

  /** What one ranking is told besides the queue. */
  datatype Context = Context(counts: map<string, nat>, now: real, front: string, yielded: string,
                             probesReady: bool, estimates: map<string, real>)

  /** `key` compares class first, then the value within the class, then the line's position. */
  datatype Key = Key(cls: nat, value: real, index: nat)

  datatype Row = Row(session: string, ageS: int, estimate: real, score: real, line: Line, index: nat,
                     created: real, kind: string, lane: string, small: bool, batch: bool, key: Key)

  function Lane(kind: string): string {
    if kind == "single" || kind == "check" then kind else "fleet"
  }

  const LANES := ["single", "check", "fleet"]

  /** Python's `round`: to the nearest integer, halves to the even one. */
  function Round(x: real): int {
    var low := x.Floor;
    var rest := x - low as real;
    if rest < 0.5 || (rest == 0.5 && low % 2 == 0) then low else low + 1
  }

  function Max(a: real, b: real): real {
    if a < b then b else a
  }

  /** A row before its batch and key are known. */
  function RowOf(p: Policy, c: Context, line: Line, index: nat): Row
    requires line.Ticket?
  {
    var declared := Max(1.0, line.declared);
    var estimate := Max(1.0, if line.session in c.estimates then c.estimates[line.session] else declared);
    var age := Max(0.0, c.now - line.created);
    var dependents := if line.session in c.counts then c.counts[line.session] else 0;
    var score := (1 + dependents) as real / estimate + age / 1800.0;
    Row(line.session, Round(age), estimate, Round(score * 10000.0) as real / 10000.0, line, index,
        line.created, line.kind, Lane(line.kind), estimate <= p.smallMax, false, Key(0, 0.0, index))
  }

  ghost predicate Readable(lines: seq<Line>) {
    forall i :: 0 <= i < |lines| ==> lines[i].Ticket?
  }

  function RowsOf(p: Policy, c: Context, lines: seq<Line>): (rows: seq<Row>)
    requires forall i :: 0 <= i < |lines| ==> lines[i].Ticket?
    ensures |rows| == |lines| && forall i :: 0 <= i < |rows| ==> rows[i] == RowOf(p, c, lines[i], i)
  {
    seq(|lines|, i requires 0 <= i < |lines| => RowOf(p, c, lines[i], i))
  }

  predicate OlderFirst(a: Row, b: Row) {
    a.created < b.created || (a.created == b.created && a.index <= b.index)
  }

  /** The small tickets of a lane, oldest first. */
  function SmallOf(rows: seq<Row>, lane: string): seq<Row> {
    Sorted(OlderFirst, SmallIn(rows, lane))
  }

  function SmallIn(rows: seq<Row>, lane: string): seq<Row> {
    if rows == [] then []
    else (if rows[0].lane == lane && rows[0].small then [rows[0]] else []) + SmallIn(rows[1..], lane)
  }

  function Minutes(rows: seq<Row>): real {
    if rows == [] then 0.0 else Minutes(rows[..|rows| - 1]) + rows[|rows| - 1].estimate
  }

  /** How many of the oldest fit the cap before the first one that does not. */
  function FitCount(list: seq<Row>, from: nat, cap: real): (n: nat)
    requires from <= |list|
    ensures from <= n <= |list|
    ensures forall i :: from < i <= n ==> Minutes(list[..i]) <= cap
    ensures n < |list| ==> Minutes(list[..n + 1]) > cap
    decreases |list| - from
  {
    if from == |list| || Minutes(list[..from + 1]) > cap then from else FitCount(list, from + 1, cap)
  }

  /** A lane's batch: the oldest small tickets, as far as the cap lets them. */
  function Batch(p: Policy, rows: seq<Row>, lane: string): seq<Row> {
    var list := SmallOf(rows, lane);
    list[..FitCount(list, 0, p.batchCap)]
  }

  function Sessions(rows: seq<Row>): (sessions: set<string>)
    ensures forall s :: s in sessions <==> exists i :: 0 <= i < |rows| && rows[i].session == s
  {
    if rows == [] then {} else {rows[0].session} + Sessions(rows[1..])
  }

  function BatchSessions(p: Policy, rows: seq<Row>, lanes: seq<string>): set<string> {
    if lanes == [] then {}
    else BatchSessions(p, rows, lanes[..|lanes| - 1]) + Sessions(Batch(p, rows, lanes[|lanes| - 1]))
  }

  function KeyOf(p: Policy, c: Context, r: Row, batch: set<string>): Key {
    if !c.probesReady && r.kind == "probe" then Key(6, r.index as real, r.index)
    else if r.session == c.yielded then Key(0, 0.0, r.index)
    else if r.session == c.front then Key(1, 0.0, r.index)
    else if r.ageS as real >= p.starve then Key(2, r.created, r.index)
    else if r.session in batch then Key(3, r.created, r.index)
    else if r.ageS as real >= AGED then Key(4, r.created, r.index)
    else Key(5, -r.score, r.index)
  }

  predicate KeyLeq(a: Key, b: Key) {
    || a.cls < b.cls
    || (a.cls == b.cls && a.value < b.value)
    || (a.cls == b.cls && a.value == b.value && a.index <= b.index)
  }

  predicate RowLeq(a: Row, b: Row) {
    KeyLeq(a.key, b.key)
  }

  function Keyed(p: Policy, c: Context, rows: seq<Row>, batch: set<string>): (keyed: seq<Row>)
    ensures |keyed| == |rows|
    ensures forall i :: 0 <= i < |rows| ==>
              keyed[i] == rows[i].(key := KeyOf(p, c, rows[i], batch), batch := rows[i].session in batch)
  {
    seq(|rows|, i requires 0 <= i < |rows| =>
      rows[i].(key := KeyOf(p, c, rows[i], batch), batch := rows[i].session in batch))
  }

  /** The ranking of a readable queue. */
  function Ranking(p: Policy, c: Context, lines: seq<Line>): seq<Row>
    requires forall i :: 0 <= i < |lines| ==> lines[i].Ticket?
  {
    var rows := RowsOf(p, c, lines);
    Sorted(RowLeq, Keyed(p, c, rows, BatchSessions(p, rows, LANES)))
  }

  method Rank(p: Policy, c: Context, lines: seq<Line>) returns (result: Result<seq<Row>, string>)
    ensures result.Err? <==> exists i :: 0 <= i < |lines| && lines[i].Malformed?
    ensures result.Ok? ==> result.value == Ranking(p, c, lines)
  {
    var rows: seq<Row> := [];
    for i := 0 to |lines|
      invariant |rows| == i && forall k :: 0 <= k < i ==> lines[k].Ticket? && rows[k] == RowOf(p, c, lines[k], k)
    {
      if lines[i].Malformed? {
        return Err("malformed queue row");
      }
      rows := rows + [RowOf(p, c, lines[i], i)];
    }
    assert rows == RowsOf(p, c, lines);
    var batch := FillBatches(p, rows, LANES);
    var keyed := AttachKeys(p, c, rows, batch);
    result := Ok(Sorted(RowLeq, keyed));
  }

  /** The batches of all lanes. */
  method FillBatches(p: Policy, rows: seq<Row>, lanes: seq<string>) returns (batch: set<string>)
    ensures batch == BatchSessions(p, rows, lanes)
  {
    batch := {};
    for l := 0 to |lanes|
      invariant batch == BatchSessions(p, rows, lanes[..l])
    {
      var small := SmallOf(rows, lanes[l]);
      var count := FillBatch(small, p.batchCap);
      assert lanes[..l + 1][..l] == lanes[..l];
      batch := batch + Sessions(small[..count]);
    }
    assert lanes[..|lanes|] == lanes;
  }

  method AttachKeys(p: Policy, c: Context, rows: seq<Row>, batch: set<string>) returns (keyed: seq<Row>)
    ensures keyed == Keyed(p, c, rows, batch)
  {
    keyed := [];
    for i := 0 to |rows|
      invariant |keyed| == i && forall k :: 0 <= k < i ==>
                  keyed[k] == rows[k].(key := KeyOf(p, c, rows[k], batch), batch := rows[k].session in batch)
    {
      keyed := keyed + [rows[i].(key := KeyOf(p, c, rows[i], batch), batch := rows[i].session in batch)];
    }
  }

  /** The batch loop of one lane, with its early exit at the cap. */
  method FillBatch(list: seq<Row>, cap: real) returns (count: nat)
    ensures count == FitCount(list, 0, cap)
  {
    var total := 0.0;
    for i := 0 to |list|
      invariant total == Minutes(list[..i]) && FitCount(list, 0, cap) == FitCount(list, i, cap)
    {
      assert list[..i + 1][..i] == list[..i];
      if total + list[i].estimate > cap {
        return i;
      }
      total := total + list[i].estimate;
    }
    return |list|;
  }

  // ---- what the ranking promises

  lemma {:induction false} RowsCompare()
    ensures Comparison(RowLeq) && Comparison(OlderFirst)
  {
  }

  /** The ranking holds each line of the queue once, and is sorted by key. */
  lemma {:induction false} RankingIsPermutation(p: Policy, c: Context, lines: seq<Line>) returns (positions: seq<nat>)
    requires Readable(lines)
    ensures |Ranking(p, c, lines)| == |lines| && IsPermutation(positions, |lines|)
    ensures forall i :: 0 <= i < |lines| ==>
              var r := Ranking(p, c, lines)[i];
              r.index == positions[i] && r.line == lines[positions[i]] && r.session == r.line.session
    ensures Ascending(RowLeq, Ranking(p, c, lines))
  {
    var rows := RowsOf(p, c, lines);
    var keyed := Keyed(p, c, rows, BatchSessions(p, rows, LANES));
    RowsCompare();
    SortedAscends(RowLeq, keyed);
    SortedKeepsElements(RowLeq, keyed);
    positions := PermutationBetween(keyed, Sorted(RowLeq, keyed));
  }

  /** Each ranked row is the row of its line, keyed. */
  lemma {:induction false} RankedRow(p: Policy, c: Context, lines: seq<Line>, i: nat)
    requires Readable(lines) && i < |Ranking(p, c, lines)|
    ensures var rows := RowsOf(p, c, lines);
            var r := Ranking(p, c, lines)[i];
            && r.index < |lines| && r.line == lines[r.index] && r.session == r.line.session && r.kind == r.line.kind
            && r.created == r.line.created && r.lane == Lane(r.kind)
            && r.ageS == Round(Max(0.0, c.now - r.created))
            && r.key == KeyOf(p, c, rows[r.index], BatchSessions(p, rows, LANES))
  {
    hide BatchSessions, KeyOf, Sorted;
    var rows := RowsOf(p, c, lines);
    var keyed := Keyed(p, c, rows, BatchSessions(p, rows, LANES));
    SortedMembers(RowLeq, keyed);
    var k :| 0 <= k < |keyed| && keyed[k] == Ranking(p, c, lines)[i];
  }

  /** The small tickets of a lane are its rows marked small, each as often as it is among the rows. */
  lemma {:induction false} SmallAnswer(rows: seq<Row>, lane: string, r: Row)
    ensures multiset(SmallOf(rows, lane))[r] == if r.lane == lane && r.small then multiset(rows)[r] else 0
  {
    RowsCompare();
    SortedAscends(OlderFirst, SmallIn(rows, lane));
    CountSmall(rows, lane, r);
  }

  lemma {:induction false} CountSmall(rows: seq<Row>, lane: string, r: Row)
    ensures multiset(SmallIn(rows, lane))[r] == if r.lane == lane && r.small then multiset(rows)[r] else 0
  {
    if rows != [] {
      CountSmall(rows[1..], lane, r);
      assert rows == [rows[0]] + rows[1..];
    }
  }

  /** A lane's batch is an oldest-first part of its small tickets, within the cap and as many as fit. */
  lemma {:induction false} BatchIsOldestPrefix(p: Policy, rows: seq<Row>, lane: string)
    ensures var batch, small := Batch(p, rows, lane), SmallOf(rows, lane);
            && batch <= small
            && (forall i, j :: 0 <= i < j < |small| ==>
                  small[i].created < small[j].created
                  || (small[i].created == small[j].created && small[i].index <= small[j].index))
            && (batch == [] || Minutes(batch) <= p.batchCap)
            && (|batch| < |small| ==> Minutes(small[..|batch| + 1]) > p.batchCap)
  {
    RowsCompare();
    SortedAscends(OlderFirst, SmallIn(rows, lane));
    var small := SmallOf(rows, lane);
    forall i, j | 0 <= i < j < |small| ensures OlderFirst(small[i], small[j]) {
    }
  }

  /** Past the starvation age. */
  predicate Starved(p: Policy, c: Context, line: Line) {
    line.Ticket? && Round(Max(0.0, c.now - line.created)) as real >= p.starve
  }

  /** Temporarily not to be admitted. */
  predicate Ineligible(c: Context, line: Line) {
    line.Ticket? && line.kind == "probe" && !c.probesReady
  }

  predicate Marked(c: Context, line: Line) {
    line.Ticket? && (line.session == c.front || line.session == c.yielded)
  }

  /** What is ranked before a starved, eligible ticket is marked, or a starved ticket that is older. */
  lemma {:induction false} OnlyOlderPass(p: Policy, c: Context, lines: seq<Line>, i: nat, j: nat)
    requires Readable(lines) && i < j < |Ranking(p, c, lines)|
    requires Starved(p, c, Ranking(p, c, lines)[j].line) && !Ineligible(c, Ranking(p, c, lines)[j].line)
    ensures var r, t := Ranking(p, c, lines)[i], Ranking(p, c, lines)[j];
            Marked(c, r.line) || (Starved(p, c, r.line) && r.created <= t.created
                                  && (r.created == t.created ==> r.index <= t.index))
  {
    hide Ranking, BatchSessions, IsPermutation, Round;
    var positions := RankingIsPermutation(p, c, lines);
    RankedRow(p, c, lines, i);
    RankedRow(p, c, lines, j);
    assert RowLeq(Ranking(p, c, lines)[i], Ranking(p, c, lines)[j]);
  }

  // ---- over whole runs

  /** A ticket joins the end of the line, some ticket leaves unserved, or a lane takes its head of the ranking. */
  datatype Event = Arrive(line: Line) | Leave(session: string) | Serve(lane: string, context: Context)

  function Without(lines: seq<Line>, session: string): seq<Line> {
    if lines == [] then []
    else (if lines[0].Ticket? && lines[0].session == session then [] else [lines[0]]) + Without(lines[1..], session)
  }

  function LinesOf(rows: seq<Row>): (lines: seq<Line>)
    ensures |lines| == |rows| && forall i :: 0 <= i < |rows| ==> lines[i] == rows[i].line
  {
    seq(|rows|, i requires 0 <= i < |rows| => rows[i].line)
  }

  ghost predicate FirstOfLane(rows: seq<Row>, lane: string, i: nat) {
    i < |rows| && rows[i].lane == lane && forall k :: 0 <= k < i ==> rows[k].lane != lane
  }

  /** The first ranked row of the lane. */
  function Head(rows: seq<Row>, lane: string): (head: Option<Row>)
    ensures head.None? ==> forall i :: 0 <= i < |rows| ==> rows[i].lane != lane
    ensures head.Some? ==> exists i: nat :: FirstOfLane(rows, lane, i) && rows[i] == head.value
  {
    if rows == [] then None
    else if rows[0].lane == lane then
      assert FirstOfLane(rows, lane, 0);
      Some(rows[0])
    else
      var rest := Head(rows[1..], lane);
      assert forall i: nat :: FirstOfLane(rows[1..], lane, i) ==> FirstOfLane(rows, lane, i + 1);
      rest
  }

  function Served(p: Policy, lines: seq<Line>, e: Event): Option<Row>
    requires e.Serve? && forall i :: 0 <= i < |lines| ==> lines[i].Ticket?
  {
    Head(Ranking(p, e.context, lines), e.lane)
  }

  /** The queue after one event. Serving rewrites it in ranked order and removes the served session. */
  function Apply(p: Policy, lines: seq<Line>, e: Event): seq<Line>
    requires forall i :: 0 <= i < |lines| ==> lines[i].Ticket?
  {
    match e
    case Arrive(line) => lines + [line]
    case Leave(session) => Without(lines, session)
    case Serve(lane, c) =>
      var rows := Ranking(p, c, lines);
      match Head(rows, lane)
      case None => LinesOf(rows)
      case Some(r) => Without(LinesOf(rows), r.session)
  }

  /** The waiting ticket `t` during the run: it stays, and is starved and eligible whenever a lane is served. */
  ghost predicate Waits(p: Policy, lines: seq<Line>, events: seq<Event>, t: Line)
    decreases |events|
  {
    && Readable(lines) && t in lines
    && (events == [] ||
        (&& (events[0].Arrive? ==> events[0].line.Ticket?)
         && (events[0].Serve? ==> Starved(p, events[0].context, t) && !Ineligible(events[0].context, t))
         && Waits(p, Apply(p, lines, events[0]), events[1..], t)))
  }

  /** Tickets no younger than `t`, itself included. */
  function Older(lines: seq<Line>, t: Line): nat
    requires t.Ticket?
  {
    if lines == [] then 0
    else (if lines[0].Ticket? && lines[0].created <= t.created then 1 else 0) + Older(lines[1..], t)
  }

  /** A ticket no younger than `t` joins: a resumed one, or one that keeps the place of the ticket it replaces. */
  predicate Returns(e: Event, t: Line)
    requires t.Ticket?
  {
    e.Arrive? && e.line.Ticket? && e.line.created <= t.created
  }

  function Returning(events: seq<Event>, t: Line): nat
    requires t.Ticket?
  {
    if events == [] then 0 else (if Returns(events[0], t) then 1 else 0) + Returning(events[1..], t)
  }

  /** How often the run serves the lane with a ticket that nobody marked to go first. */
  function Turns(p: Policy, lines: seq<Line>, events: seq<Event>, lane: string): nat
    requires forall i :: 0 <= i < |lines| ==> lines[i].Ticket?
    requires forall e :: e in events && e.Arrive? ==> e.line.Ticket?
    decreases |events|
  {
    if events == [] then 0
    else
      ApplyKeepsReadable(p, lines, events[0]);
      assert forall e :: e in events[1..] ==> e in events;
      (if events[0].Serve? && events[0].lane == lane && Served(p, lines, events[0]).Some?
          && !Marked(events[0].context, Served(p, lines, events[0]).value.line) then 1 else 0)
      + Turns(p, Apply(p, lines, events[0]), events[1..], lane)
  }

  lemma {:induction false} WithoutMember(lines: seq<Line>, session: string, line: Line)
    ensures line in Without(lines, session) <==> line in lines && !(line.Ticket? && line.session == session)
  {
    if lines != [] {
      WithoutMember(lines[1..], session, line);
      assert lines == [lines[0]] + lines[1..];
    }
  }

  lemma {:induction false} RankedLines(p: Policy, c: Context, lines: seq<Line>)
    requires Readable(lines)
    ensures multiset(LinesOf(Ranking(p, c, lines))) == multiset(lines)
  {
    var positions := RankingIsPermutation(p, c, lines);
    PermutationKeepsElements(lines, LinesOf(Ranking(p, c, lines)), positions);
  }

  lemma {:induction false} ApplyKeepsReadable(p: Policy, lines: seq<Line>, e: Event)
    requires Readable(lines) && (e.Arrive? ==> e.line.Ticket?)
    ensures Readable(Apply(p, lines, e))
  {
    var after := Apply(p, lines, e);
    forall i | 0 <= i < |after| ensures after[i].Ticket? {
      if e.Leave? {
        WithoutMember(lines, e.session, after[i]);
      } else if e.Serve? {
        var ranked := LinesOf(Ranking(p, e.context, lines));
        RankedLines(p, e.context, lines);
        var head := Head(Ranking(p, e.context, lines), e.lane);
        assert after[i] in after;
        if head.Some? {
          WithoutMember(ranked, head.value.session, after[i]);
        }
        assert after[i] in multiset(ranked);
      }
    }
  }

  lemma {:induction false} OlderConcat(a: seq<Line>, b: seq<Line>, t: Line)
    requires t.Ticket?
    ensures Older(a + b, t) == Older(a, t) + Older(b, t)
  {
    if a == [] {
      assert a + b == b;
    } else {
      assert (a + b)[1..] == a[1..] + b;
      OlderConcat(a[1..], b, t);
    }
  }

  lemma {:induction false} OlderRearranged(a: seq<Line>, b: seq<Line>, t: Line)
    requires t.Ticket? && multiset(a) == multiset(b)
    ensures Older(a, t) == Older(b, t)
  {
    if a == [] {
      assert |multiset(b)| == 0;
    } else {
      var k := DropMatching(a, b);
      var n := |a| - 1;
      OlderRearranged(a[..n], b[..k] + b[k + 1..], t);
      OlderSplit(a, n, t);
      OlderSplit(b, k, t);
      assert a[..n] + a[n + 1..] == a[..n];
    }
  }

  lemma {:induction false} OlderSplit(a: seq<Line>, k: nat, t: Line)
    requires t.Ticket? && k < |a|
    ensures Older(a, t) == Older(a[..k] + a[k + 1..], t) + Older([a[k]], t)
  {
    assert a == a[..k] + ([a[k]] + a[k + 1..]);
    OlderConcat(a[..k], [a[k]] + a[k + 1..], t);
    OlderConcat([a[k]], a[k + 1..], t);
    OlderConcat(a[..k], a[k + 1..], t);
  }

  lemma {:induction false} OlderWithout(lines: seq<Line>, session: string, t: Line, gone: Line)
    requires t.Ticket?
    ensures Older(Without(lines, session), t) <= Older(lines, t)
    ensures gone in lines && gone.Ticket? && gone.session == session && gone.created <= t.created ==>
              Older(Without(lines, session), t) < Older(lines, t)
  {
    if lines != [] {
      OlderWithout(lines[1..], session, t, gone);
      var first := if lines[0].Ticket? && lines[0].session == session then [] else [lines[0]];
      OlderConcat(first, Without(lines[1..], session), t);
      assert [lines[0]][1..] == [];
    }
  }

  /** Only a returning ticket adds one no younger than `t`, and an unmarked turn of its lane removes one. */
  lemma {:induction false} TurnRemovesOlder(p: Policy, lines: seq<Line>, e: Event, t: Line)
    requires Readable(lines) && t in lines && t in Apply(p, lines, e)
    requires e.Arrive? ==> e.line.Ticket?
    requires e.Serve? ==> Starved(p, e.context, t) && !Ineligible(e.context, t)
    ensures Older(Apply(p, lines, e), t) <= Older(lines, t) + if Returns(e, t) then 1 else 0
    ensures e.Serve? && e.lane == Lane(t.kind) && Served(p, lines, e).Some?
              && !Marked(e.context, Served(p, lines, e).value.line) ==>
              Older(Apply(p, lines, e), t) < Older(lines, t)
  {
    match e
    case Arrive(line) =>
      OlderConcat(lines, [line], t);
      assert [line][1..] == [];
    case Leave(session) => OlderWithout(lines, session, t, t);
    case Serve(lane, c) =>
      var rows := Ranking(p, c, lines);
      RankedLines(p, c, lines);
      OlderRearranged(LinesOf(rows), lines, t);
      var head := Head(rows, lane);
      if head.Some? {
        var i: nat :| FirstOfLane(rows, lane, i) && rows[i] == head.value;
        RankedRow(p, c, lines, i);
        assert LinesOf(rows)[i] == rows[i].line;
        OlderWithout(LinesOf(rows), head.value.session, t, rows[i].line);
        if lane == Lane(t.kind) && !Marked(c, head.value.line) {
          ServedIsOlder(p, c, lines, t, lane, i);
        }
      }
  }

  lemma {:induction false} RankOf(p: Policy, c: Context, lines: seq<Line>, t: Line) returns (j: nat)
    requires Readable(lines) && t in lines
    ensures j < |Ranking(p, c, lines)| && Ranking(p, c, lines)[j].line == t
  {
    var ranked := LinesOf(Ranking(p, c, lines));
    RankedLines(p, c, lines);
    assert t in multiset(ranked);
    j :| 0 <= j < |ranked| && ranked[j] == t;
  }

  lemma {:induction false} ServedIsOlder(p: Policy, c: Context, lines: seq<Line>, t: Line, lane: string, i: nat)
    requires Readable(lines) && t in lines && lane == Lane(t.kind) && i < |Ranking(p, c, lines)|
    requires Starved(p, c, t) && !Ineligible(c, t)
    requires FirstOfLane(Ranking(p, c, lines), lane, i) && !Marked(c, Ranking(p, c, lines)[i].line)
    ensures Ranking(p, c, lines)[i].created <= t.created
  {
    var j := RankOf(p, c, lines, t);
    RankedRow(p, c, lines, j);
    if i < j {
      OnlyOlderPass(p, c, lines, i, j);
    }
  }

  /**
   No starvation, over every run: while a starved, eligible ticket waits, its lane takes fewer unmarked turns than there
   were tickets no younger than it at the start and have returned since.
   */
  lemma {:induction false} StarvedWaitIsBounded(p: Policy, lines: seq<Line>, events: seq<Event>, t: Line)
    requires Waits(p, lines, events, t) && t.Ticket?
    requires forall e :: e in events && e.Arrive? ==> e.line.Ticket?
    ensures Turns(p, lines, events, Lane(t.kind)) < Older(lines, t) + Returning(events, t)
    decreases |events|
  {
    if events == [] {
      OlderHasIt(lines, t);
    } else {
      var next := Apply(p, lines, events[0]);
      assert forall e :: e in events[1..] ==> e in events;
      assert t in next;
      TurnRemovesOlder(p, lines, events[0], t);
      StarvedWaitIsBounded(p, next, events[1..], t);
    }
  }

  lemma {:induction false} OlderHasIt(lines: seq<Line>, t: Line)
    requires t.Ticket? && t in lines
    ensures Older(lines, t) > 0
  {
    if lines[0] != t {
      OlderHasIt(lines[1..], t);
    }
  }
}
