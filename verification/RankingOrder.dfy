/** Which of two ranked tickets comes first, said on the queue's lines alone. */
module RankingOrder {
  import opened Sorting
  import opened FleetPriority

  // ---- what is known of a line

  /** The age that counts, in whole seconds. */
  function Seconds(c: Context, line: Line): int
    requires line.Ticket?
  {
    Round(if c.now - line.created > 0.0 then c.now - line.created else 0.0)
  }

  /** Minutes: predicted if there is a prediction, else declared, and at least one. */
  function Estimate(c: Context, line: Line): (minutes: real)
    requires line.Ticket?
    ensures minutes >= 1.0
  {
    var said := if line.session in c.estimates then c.estimates[line.session] else line.declared;
    if said < 1.0 then 1.0 else said
  }

  function Waiting(c: Context, line: Line): nat
    requires line.Ticket?
  {
    if line.session in c.counts then c.counts[line.session] else 0
  }

  /** Waiting jobs per minute plus half hours of age, to four places. */
  function Score(c: Context, line: Line): real
    requires line.Ticket?
  {
    var age := if c.now - line.created > 0.0 then c.now - line.created else 0.0;
    Round(((1 + Waiting(c, line)) as real / Estimate(c, line) + age / 1800.0) * 10000.0) as real / 10000.0
  }

  /** In the batch of some lane. */
  ghost predicate Batched(p: Policy, c: Context, lines: seq<Line>, session: string)
    requires Readable(lines)
  {
    var rows := RowsOf(p, c, lines);
    || (exists i :: 0 <= i < |Batch(p, rows, "single")| && Batch(p, rows, "single")[i].session == session)
    || (exists i :: 0 <= i < |Batch(p, rows, "check")| && Batch(p, rows, "check")[i].session == session)
    || (exists i :: 0 <= i < |Batch(p, rows, "fleet")| && Batch(p, rows, "fleet")[i].session == session)
  }

  lemma {:induction false} BatchedAnswer(p: Policy, c: Context, lines: seq<Line>, session: string)
    requires Readable(lines)
    ensures session in BatchSessions(p, RowsOf(p, c, lines), LANES) <==> Batched(p, c, lines, session)
  {
    hide Batch;
    var rows := RowsOf(p, c, lines);
    assert LANES[..2] == ["single", "check"] && LANES[..2][..1] == ["single"] && LANES[..2][..1][..0] == [];
    assert BatchSessions(p, rows, ["single"]) == Sessions(Batch(p, rows, "single")) by {
      assert ["single"][..0] == [];
    }
    assert BatchSessions(p, rows, ["single", "check"]) ==
           BatchSessions(p, rows, ["single"]) + Sessions(Batch(p, rows, "check")) by {
      assert ["single", "check"][..1] == ["single"];
    }
  }

  /** The row of a line shows the line's age, estimate and score, its lane, and whether it is small. */
  lemma {:induction false} RowAnswer(p: Policy, c: Context, line: Line, index: nat)
    requires line.Ticket?
    ensures var r := RowOf(p, c, line, index);
            && r.ageS == Seconds(c, line) && r.estimate == Estimate(c, line) && r.score == Score(c, line)
            && r.session == line.session && r.kind == line.kind && r.created == line.created && r.index == index
            && r.lane == (if line.kind in {"single", "check"} then line.kind else "fleet")
            && (r.small <==> Estimate(c, line) <= p.smallMax)
  {
    hide Round;
  }

  /** `round`: the nearest integer, and of two the even one. */
  lemma {:induction false} RoundAnswer(x: real)
    ensures -0.5 <= Round(x) as real - x <= 0.5
    ensures Round(x) as real - x == 0.5 || Round(x) as real - x == -0.5 ==> Round(x) % 2 == 0
  {
  }

  // ---- two ranked tickets

  predicate IsProbe(c: Context, line: Line) {
    line.Ticket? && line.kind == "probe" && c.probesReady == false
  }

  predicate IsYielded(c: Context, line: Line) {
    line.Ticket? && line.session == c.yielded
  }

  predicate IsFront(c: Context, line: Line) {
    line.Ticket? && line.session == c.front
  }

  predicate IsStarved(p: Policy, c: Context, line: Line) {
    line.Ticket? && Seconds(c, line) as real >= p.starve
  }

  predicate IsAged(c: Context, line: Line) {
    line.Ticket? && Seconds(c, line) >= 1800
  }

  /** Where a line stands among the classes, from the best. */
  ghost predicate Stands(p: Policy, c: Context, lines: seq<Line>, line: Line, at: nat)
    requires Readable(lines)
  {
    && line.Ticket?
    && (at == 6 <==> IsProbe(c, line))
    && (at == 0 <==> !IsProbe(c, line) && IsYielded(c, line))
    && (at == 1 <==> !IsProbe(c, line) && !IsYielded(c, line) && IsFront(c, line))
    && (at == 2 <==> !IsProbe(c, line) && !IsYielded(c, line) && !IsFront(c, line) && IsStarved(p, c, line))
    && (at == 3 <==> !IsProbe(c, line) && !IsYielded(c, line) && !IsFront(c, line) && !IsStarved(p, c, line)
                     && Batched(p, c, lines, line.session))
    && (at == 4 <==> !IsProbe(c, line) && !IsYielded(c, line) && !IsFront(c, line) && !IsStarved(p, c, line)
                     && !Batched(p, c, lines, line.session) && IsAged(c, line))
    && at <= 6
  }

  lemma {:induction false} KeyAnswer(p: Policy, c: Context, lines: seq<Line>, index: nat) returns (at: nat)
    requires Readable(lines) && index < |lines|
    ensures Stands(p, c, lines, lines[index], at)
    ensures var rows := RowsOf(p, c, lines);
            var line := lines[index];
            KeyOf(p, c, rows[index], BatchSessions(p, rows, LANES)) ==
              Key(at, if at == 6 then index as real else if at in {2, 3, 4} then line.created
                      else if at == 5 then -Score(c, line) else 0.0, index)
  {
    hide BatchSessions, Batched, Score, Estimate, Round;
    var line := lines[index];
    RowAnswer(p, c, line, index);
    BatchedAnswer(p, c, lines, line.session);
    at := if IsProbe(c, line) then 6 else if IsYielded(c, line) then 0 else if IsFront(c, line) then 1
          else if IsStarved(p, c, line) then 2 else if Batched(p, c, lines, line.session) then 3
          else if IsAged(c, line) then 4 else 5;
  }

  /**
   Of any two ranked tickets the first stands in a better class: yielded, front, starved, batched, aged, the rest, and
   last the probes that may not run. Within the starved, the batched and the aged it is no younger; within the rest its
   score is no lower; and of two that tie so it came earlier in the queue, as of two yielded, front or probes.
   */
  lemma {:induction false} RankedOrder(p: Policy, c: Context, lines: seq<Line>, i: nat, j: nat)
    returns (first: nat, second: nat)
    requires Readable(lines) && i < j < |Ranking(p, c, lines)|
    ensures var x, y := Ranking(p, c, lines)[i], Ranking(p, c, lines)[j];
            && x.index < |lines| && y.index < |lines| && x.line == lines[x.index] && y.line == lines[y.index]
            && Stands(p, c, lines, x.line, first) && Stands(p, c, lines, y.line, second) && first <= second
            && (first == second && first in {2, 3, 4} ==>
                  x.line.created < y.line.created || (x.line.created == y.line.created && x.index < y.index))
            && (first == second == 5 ==>
                  Score(c, x.line) > Score(c, y.line) || (Score(c, x.line) == Score(c, y.line) && x.index < y.index))
            && (first == second && first in {0, 1, 6} ==> x.index < y.index)
  {
    hide Ranking, BatchSessions, IsPermutation, Round, KeyOf, Stands, Score;
    var positions := RankingIsPermutation(p, c, lines);
    RankedRow(p, c, lines, i);
    RankedRow(p, c, lines, j);
    var x, y := Ranking(p, c, lines)[i], Ranking(p, c, lines)[j];
    first := KeyAnswer(p, c, lines, x.index);
    second := KeyAnswer(p, c, lines, y.index);
    assert RowLeq(x, y);
    PositionsDiffer(positions, |lines|, i, j);
  }

  lemma {:induction false} PositionsDiffer(positions: seq<nat>, n: nat, i: nat, j: nat)
    requires IsPermutation(positions, n) && i < j < n
    ensures positions[i] != positions[j]
  {
  }

  /** The queue's score decides among fresh, unmarked, unbatched tickets: the higher one first. */
  lemma {:induction false} HigherScoreFirst(p: Policy, c: Context, lines: seq<Line>, i: nat, j: nat)
    requires Readable(lines) && i < |Ranking(p, c, lines)| && j < |Ranking(p, c, lines)|
    requires Stands(p, c, lines, Ranking(p, c, lines)[i].line, 5)
    requires Stands(p, c, lines, Ranking(p, c, lines)[j].line, 5)
    ensures Score(c, Ranking(p, c, lines)[i].line) > Score(c, Ranking(p, c, lines)[j].line) ==> i < j
  {
    hide Ranking, Score, Batched;
    if i > j {
      var first, second := RankedOrder(p, c, lines, j, i);
    }
  }
}
