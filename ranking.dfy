/**
 * The "Processed Ideas" panel: the processed ideas ranked best first,
 * each with one mark (a star for the maximum value, green at or above the
 * baseline score, red below it) and a display label cut to 25 characters.
 */
module Ranking {
  import opened Wrappers
  import opened Sorting
  import opened Ideas

  datatype Mark = Star | Green | Red

  /** `max(values) if values else 0`. */
  function MaxOf(vs: seq<real>): (m: real)
    ensures vs == [] ==> m == 0.0
    ensures forall i :: 0 <= i < |vs| ==> vs[i] <= m
    ensures vs != [] ==> exists i :: 0 <= i < |vs| && vs[i] == m
  {
    if vs == [] then 0.0
    else if |vs| == 1 then vs[0]
    else
      var rest := MaxOf(vs[1..]);
      if vs[0] >= rest then vs[0] else rest
  }

  /** The mark of an idea valued `v`, with `best` the largest value shown. */
  function Classify(v: real, best: real, threshold: real): Mark {
    if v == best then Star
    else if v >= threshold then Green
    else Red
  }

  const LabelLimit: nat := 25

  /** The label: names longer than 25 characters are cut to 25 and marked with "...". */
  function Truncate(name: string): (r: string)
    ensures |name| <= LabelLimit ==> r == name
    ensures |name| > LabelLimit ==> |r| == LabelLimit + 3 && r[..LabelLimit] == name[..LabelLimit] && r[LabelLimit..] == "..."
  {
    if |name| > LabelLimit then name[..LabelLimit] + "..." else name
  }

  /** A label is cut only once: cutting it again gives the same label. */
  lemma TruncateIdempotent(name: string)
    ensures Truncate(Truncate(name)) == Truncate(name)
    ensures |Truncate(name)| <= LabelLimit + 3
  {
    if |name| > LabelLimit {
      var t := Truncate(name);
      assert t[..LabelLimit] + "..." == t;
    }
  }

  /** One row of the panel. */
  datatype Row = Row(idea: ProcessedIdea, mark: Mark, caption: string, selected: bool)

  function Values(ideas: seq<ProcessedIdea>): (vs: seq<real>)
    ensures |vs| == |ideas| && forall i :: 0 <= i < |ideas| ==> vs[i] == ideas[i].metricValue
  {
    seq(|ideas|, i requires 0 <= i < |ideas| => ideas[i].metricValue)
  }

  /** The rows for ideas already in display order, marked against the best of them. */
  function Panel(ranked: seq<ProcessedIdea>, threshold: real, selected: Option<ProcessedIdea>): (rows: seq<Row>)
    ensures |rows| == |ranked|
    ensures forall i :: 0 <= i < |rows| ==> rows[i].idea == ranked[i]
    // Each row is captioned with its idea's truncated display name and highlighted when that idea is selected.
    ensures forall i :: 0 <= i < |rows| ==> rows[i].caption == Truncate(rows[i].idea.displayName)
    ensures forall i :: 0 <= i < |rows| ==> (rows[i].selected <==> selected.Some? && selected.value.name == rows[i].idea.name)
  {
    var best := MaxOf(Values(ranked));
    seq(|ranked|, i requires 0 <= i < |ranked| =>
      Row(ranked[i], Classify(ranked[i].metricValue, best, threshold), Truncate(ranked[i].displayName),
          selected.Some? && selected.value.name == ranked[i].name))
  }

  /** The panel for the current processed ideas, baseline score and selection. */
  function PanelRows(processed: seq<ProcessedIdea>, threshold: real, selected: Option<ProcessedIdea>): seq<Row> {
    Panel(SortDesc(processed, MetricOfIdea), threshold, selected)
  }

  /** Star first, then green, then red. */
  function MarkRank(m: Mark): nat {
    match m
    case Star => 0
    case Green => 1
    case Red => 2
  }

  /** In any list of rows, the star goes to every idea no other one beats; the rest split at the threshold. */
  lemma PanelMarks(ranked: seq<ProcessedIdea>, threshold: real, selected: Option<ProcessedIdea>)
    ensures var rows := Panel(ranked, threshold, selected);
      forall i :: 0 <= i < |rows| ==>
        && (rows[i].mark == Star <==> forall j :: 0 <= j < |ranked| ==> ranked[j].metricValue <= ranked[i].metricValue)
        && (rows[i].mark == Green <==> rows[i].mark != Star && ranked[i].metricValue >= threshold)
        && (rows[i].mark == Red <==> rows[i].mark != Star && ranked[i].metricValue < threshold)
  {
    var vs := Values(ranked);
    var best := MaxOf(vs);
    var rows := Panel(ranked, threshold, selected);
    forall i | 0 <= i < |rows|
      ensures rows[i].mark == Star <==> forall j :: 0 <= j < |ranked| ==> ranked[j].metricValue <= ranked[i].metricValue
    {
      assert rows[i].mark == Classify(vs[i], best, threshold);
      if rows[i].mark != Star {
        var j :| 0 <= j < |vs| && vs[j] == best;
        assert ranked[j].metricValue > ranked[i].metricValue;
      }
    }
  }

  /** On ideas in non-increasing order the marks run star, green, red. */
  lemma PanelMarksOrdered(ranked: seq<ProcessedIdea>, threshold: real, selected: Option<ProcessedIdea>)
    requires NonIncreasing(ranked, MetricOfIdea)
    ensures var rows := Panel(ranked, threshold, selected);
      forall i, j :: 0 <= i < j < |rows| ==> MarkRank(rows[i].mark) <= MarkRank(rows[j].mark)
  {
    var vs := Values(ranked);
    var best := MaxOf(vs);
    var rows := Panel(ranked, threshold, selected);
    forall i, j | 0 <= i < j < |rows|
      ensures MarkRank(rows[i].mark) <= MarkRank(rows[j].mark)
    {
      assert MetricOfIdea(ranked[i]) >= MetricOfIdea(ranked[j]);
      assert rows[i].mark == Classify(vs[i], best, threshold);
      assert rows[j].mark == Classify(vs[j], best, threshold);
    }
  }

  /** The ideas of the rows, top to bottom. */
  function RowIdeas(rows: seq<Row>): (ps: seq<ProcessedIdea>)
    ensures |ps| == |rows| && forall i :: 0 <= i < |rows| ==> ps[i] == rows[i].idea
  {
    seq(|rows|, i requires 0 <= i < |rows| => rows[i].idea)
  }

  /**
   * The panel's ideas are a rearrangement of the processed ideas in which
   * ideas of equal value keep the order they were processed in.
   */
  lemma PanelKeepsTies(processed: seq<ProcessedIdea>, threshold: real, selected: Option<ProcessedIdea>)
    ensures var ideas := RowIdeas(PanelRows(processed, threshold, selected));
      && multiset(ideas) == multiset(processed)
      && forall v :: WithKey(ideas, MetricOfIdea, v) == WithKey(processed, MetricOfIdea, v)
  {
    var ranked := SortDesc(processed, MetricOfIdea);
    SortDescMultiset(processed, MetricOfIdea);
    assert RowIdeas(Panel(ranked, threshold, selected)) == ranked;
    forall v
      ensures WithKey(ranked, MetricOfIdea, v) == WithKey(processed, MetricOfIdea, v)
    {
      SortDescStable(processed, MetricOfIdea, v);
    }
  }

  /** The panel shows every processed idea and nothing else, best first. */
  lemma PanelRanked(processed: seq<ProcessedIdea>, threshold: real, selected: Option<ProcessedIdea>)
    ensures var rows := PanelRows(processed, threshold, selected);
      && |rows| == |processed|
      && (forall i :: 0 <= i < |rows| ==> rows[i].idea in processed)
      && (forall p :: p in processed ==> exists i :: 0 <= i < |rows| && rows[i].idea == p)
      && (forall i, j :: 0 <= i < j < |rows| ==> rows[i].idea.metricValue >= rows[j].idea.metricValue)
  {
    var ranked := SortDesc(processed, MetricOfIdea);
    var rows := Panel(ranked, threshold, selected);
    SortDescElements(processed, MetricOfIdea);
    SortDescSorted(processed, MetricOfIdea);
    forall p | p in processed
      ensures exists i :: 0 <= i < |rows| && rows[i].idea == p
    {
      var i :| 0 <= i < |ranked| && ranked[i] == p;
      assert rows[i].idea == p;
    }
    forall i, j | 0 <= i < j < |rows|
      ensures rows[i].idea.metricValue >= rows[j].idea.metricValue
    {
      assert MetricOfIdea(ranked[i]) >= MetricOfIdea(ranked[j]);
    }
  }

  /**
   * Every idea gets exactly one mark: a star exactly when no processed idea
   * is valued higher (so every tied maximum gets one); otherwise green
   * exactly when its value reaches the threshold, which is inclusive.
   */
  lemma MarkRule(processed: seq<ProcessedIdea>, threshold: real, selected: Option<ProcessedIdea>)
    ensures var rows := PanelRows(processed, threshold, selected);
      forall i :: 0 <= i < |rows| ==>
        && (rows[i].mark == Star <==> forall p :: p in processed ==> p.metricValue <= rows[i].idea.metricValue)
        && (rows[i].mark == Green <==> rows[i].mark != Star && rows[i].idea.metricValue >= threshold)
        && (rows[i].mark == Red <==> rows[i].mark != Star && rows[i].idea.metricValue < threshold)
  {
    var ranked := SortDesc(processed, MetricOfIdea);
    SortDescElements(processed, MetricOfIdea);
    PanelMarks(ranked, threshold, selected);
    forall i | 0 <= i < |ranked|
      ensures (forall p :: p in processed ==> p.metricValue <= ranked[i].metricValue)
          <==> (forall j :: 0 <= j < |ranked| ==> ranked[j].metricValue <= ranked[i].metricValue)
    {
      if forall j :: 0 <= j < |ranked| ==> ranked[j].metricValue <= ranked[i].metricValue {
        forall p | p in processed
          ensures p.metricValue <= ranked[i].metricValue
        {
          var j :| 0 <= j < |ranked| && ranked[j] == p;
        }
      }
    }
  }

  /** A non-empty panel shows at least one star. */
  lemma SomeStar(processed: seq<ProcessedIdea>, threshold: real, selected: Option<ProcessedIdea>)
    requires processed != []
    ensures var rows := PanelRows(processed, threshold, selected);
      exists i :: 0 <= i < |rows| && rows[i].mark == Star
  {
    var ranked := SortDesc(processed, MetricOfIdea);
    SortDescElements(processed, MetricOfIdea);
    var vs := Values(ranked);
    var j :| 0 <= j < |vs| && vs[j] == MaxOf(vs);
    var rows := Panel(ranked, threshold, selected);
    assert rows == PanelRows(processed, threshold, selected);
    assert rows[j].mark == Classify(vs[j], MaxOf(vs), threshold) == Star;
  }

  /** Read down the panel, the marks run star, then green, then red. */
  lemma MarksInOrder(processed: seq<ProcessedIdea>, threshold: real, selected: Option<ProcessedIdea>)
    ensures var rows := PanelRows(processed, threshold, selected);
      forall i, j :: 0 <= i < j < |rows| ==> MarkRank(rows[i].mark) <= MarkRank(rows[j].mark)
  {
    SortDescSorted(processed, MetricOfIdea);
    PanelMarksOrdered(SortDesc(processed, MetricOfIdea), threshold, selected);
  }
}
