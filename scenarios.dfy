/**
 * A worked example: four idea subdirectories listed out of order, two of
 * them tied at the top, one without a `results.json`.
 */
module Scenarios {
  import opened Wrappers
  import opened JsonValues
  import opened Catalog
  import opened Sorting
  import opened Ideas
  import opened Ranking

  const Base: Path := Path(["runs"])

  function Scored(name: string, v: real): Entry {
    Entry(name, Directory(Object(map["ROC_AUC" := Number(v)])))
  }

  const IdeaA: Entry := Scored("ideaA", 0.8)
  const IdeaB: Entry := Scored("ideaB", 0.8)
  const IdeaC: Entry := Scored("ideaC", 0.6)
  const IdeaD: Entry := Entry("ideaD", Directory(Missing))

  const RecordA: IdeaResult := IdeaResult("ideaA", 0.8, Child(Base, "ideaA"))
  const RecordB: IdeaResult := IdeaResult("ideaB", 0.8, Child(Base, "ideaB"))
  const RecordC: IdeaResult := IdeaResult("ideaC", 0.6, Child(Base, "ideaC"))

  /** Names that differ only in their last letter compare by that letter. */
  lemma IdeaNamesAscending()
    ensures Names.NameLess("ideaA", "ideaB") && Names.NameLess("ideaB", "ideaC") && Names.NameLess("ideaC", "ideaD")
    ensures !Names.NameLess("ideaD", "ideaB") && !Names.NameLess("ideaD", "ideaA") && !Names.NameLess("ideaB", "ideaA")
    ensures !Names.NameLess("ideaC", "ideaA") && !Names.NameLess("ideaC", "ideaB")
  {
    assert "ideaA" == "idea" + "A" && "ideaB" == "idea" + "B" && "ideaC" == "idea" + "C" && "ideaD" == "idea" + "D";
    Names.NameLessCommonPrefix("idea", "A", "B");
    Names.NameLessCommonPrefix("idea", "B", "C");
    Names.NameLessCommonPrefix("idea", "C", "D");
    Names.NameLessCommonPrefix("idea", "D", "B");
    Names.NameLessCommonPrefix("idea", "D", "A");
    Names.NameLessCommonPrefix("idea", "B", "A");
    Names.NameLessCommonPrefix("idea", "C", "A");
    Names.NameLessCommonPrefix("idea", "C", "B");
  }

  /** The scan walks the subdirectories in name order, whatever order the listing comes in. */
  lemma ExampleListing()
    ensures SortByName([IdeaC, IdeaA, IdeaD, IdeaB]) == [IdeaA, IdeaB, IdeaC, IdeaD]
  {
    IdeaNamesAscending();
    var c, a, d, b := IdeaC, IdeaA, IdeaD, IdeaB;
    assert [c, a, d, b][1..] == [a, d, b] && [a, d, b][1..] == [d, b] && [d, b][1..] == [b] && [b][1..] == [];
    assert SortByName([b]) == [b];
    assert InsertByName(d, [b]) == [b] + InsertByName(d, []);
    assert SortByName([d, b]) == [b, d];
    assert InsertByName(a, [b, d]) == [a, b, d];
    assert SortByName([a, d, b]) == [a, b, d];
    assert [a, b, d][1..] == [b, d] && [b, d][1..] == [d];
    assert InsertByName(c, [d]) == [c, d];
    assert InsertByName(c, [b, d]) == [b] + InsertByName(c, [d]);
    assert InsertByName(c, [a, b, d]) == [a] + InsertByName(c, [b, d]);
  }

  /** A subdirectory without `results.json` is left out; the others yield their records in listing order. */
  lemma ExampleScan()
    ensures Collect(Base, [IdeaA, IdeaB, IdeaC, IdeaD], "ROC_AUC", false) == [RecordA, RecordB, RecordC]
  {
    var a, b, c, d := IdeaA, IdeaB, IdeaC, IdeaD;
    assert [a, b, c, d][..3] == [a, b, c] && [a, b, c][..2] == [a, b] && [a, b][..1] == [a] && [a][..0] == [];
    assert Collect(Base, [a], "ROC_AUC", false) == [RecordA];
    assert Collect(Base, [a, b], "ROC_AUC", false) == [RecordA, RecordB];
    assert Collect(Base, [a, b, c], "ROC_AUC", false) == [RecordA, RecordB, RecordC];
  }

  /** The tie at 0.80 keeps name order and the 0.60 record comes last. */
  lemma ExampleRanking()
    ensures SortDesc([RecordA, RecordB, RecordC], MetricOf) == [RecordA, RecordB, RecordC]
  {
    var ra, rb, rc := RecordA, RecordB, RecordC;
    assert [ra, rb, rc][1..] == [rb, rc] && [rb, rc][1..] == [rc];
    assert SortDesc([rc], MetricOf) == [rc];
    assert SortDesc([rb, rc], MetricOf) == [rb, rc];
  }

  /** The ranking lists both 0.80 ideas first, in name order, then the 0.60 one, and leaves out the one without results. */
  lemma TiedCatalog()
    ensures SortDesc(Collect(Base, SortByName([IdeaC, IdeaA, IdeaD, IdeaB]), "ROC_AUC", false), MetricOf)
      == [RecordA, RecordB, RecordC]
  {
    ExampleListing();
    ExampleScan();
    ExampleRanking();
  }

  function Done(name: string, v: real): ProcessedIdea {
    ProcessedIdea(name, name, Str(name), Str(NoDescription), v, Child(Base, name))
  }

  /** Against the default baseline score, both tied ideas get a star and the third one is green. */
  lemma TiedMarks()
    ensures var rows := PanelRows([Done("ideaA", 0.8), Done("ideaB", 0.8), Done("ideaC", 0.6)], 0.51, None);
      |rows| == 3 && rows[0].mark == Star && rows[1].mark == Star && rows[2].mark == Green
      && rows[0].idea.name == "ideaA" && rows[1].idea.name == "ideaB" && rows[2].idea.name == "ideaC"
  {
    var a, b, c := Done("ideaA", 0.8), Done("ideaB", 0.8), Done("ideaC", 0.6);
    assert [a, b, c][1..] == [b, c] && [b, c][1..] == [c];
    assert SortDesc([c], MetricOfIdea) == [c];
    assert SortDesc([b, c], MetricOfIdea) == [b, c];
    assert SortDesc([a, b, c], MetricOfIdea) == [a, b, c];
    assert Values([a, b, c]) == [0.8, 0.8, 0.6];
    assert [0.8, 0.8, 0.6][1..] == [0.8, 0.6] && [0.8, 0.6][1..] == [0.6];
    assert MaxOf([0.8, 0.8, 0.6]) == 0.8;
  }
}
