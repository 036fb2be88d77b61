/**
 * The ideas file (`load_ideas_data`) and the record the processing page
 * builds for an idea once its simulated processing is done.
 */
module Ideas {
  import opened Wrappers
  import opened JsonValues
  import opened Names
  import opened Catalog

  /** The ideas file: unreadable or unparsable, or a parsed document. */
  datatype IdeasFile = IdeasUnreadable | IdeasParsed(doc: Json)

  /** The ideas list and whether a warning was shown while loading it. */
  datatype IdeasLoad = IdeasLoad(ideas: seq<Json>, warned: bool)

  /** `load_ideas_data`: the parsed list, or an empty list for anything else. */
  function LoadIdeasData(file: IdeasFile): (r: IdeasLoad)
    ensures r.warned <==> file.IdeasUnreadable?
    ensures r.ideas != [] ==> file.IdeasParsed? && file.doc == Arr(r.ideas)
    ensures file.IdeasParsed? && file.doc.Arr? ==> r.ideas == file.doc.items
  {
    match file
    case IdeasUnreadable => IdeasLoad([], true)
    case IdeasParsed(doc) => if doc.Arr? then IdeasLoad(doc.items, false) else IdeasLoad([], false)
  }

  /** `idea.get("Name") == name` on an idea object. */
  predicate NameMatches(idea: Json, name: string)
    requires idea.Obj?
  {
    "Name" in idea.fields && idea.fields["Name"] == Str(name)
  }

  /** `idea.get` is only defined when every element of the list is an object. */
  predicate AllObjects(ideas: seq<Json>) {
    forall i :: 0 <= i < |ideas| ==> ideas[i].Obj?
  }

  /** The first idea object whose `Name` is `name`. */
  function FirstMatch(ideas: seq<Json>, name: string): Option<map<string, Json>>
    requires AllObjects(ideas)
  {
    if ideas == [] then None
    else if NameMatches(ideas[0], name) then Some(ideas[0].fields)
    else FirstMatch(ideas[1..], name)
  }

  /** The `i`-th idea is the first whose `Name` is `name`. */
  predicate FirstMatchAt(ideas: seq<Json>, name: string, i: int)
    requires AllObjects(ideas)
  {
    0 <= i < |ideas| && NameMatches(ideas[i], name) && forall j :: 0 <= j < i ==> !NameMatches(ideas[j], name)
  }

  /** `FirstMatch` is the first idea whose `Name` matches, and `None` when there is none. */
  lemma {:induction false} FirstMatchSpec(ideas: seq<Json>, name: string)
    requires AllObjects(ideas)
    ensures FirstMatch(ideas, name).None? <==> forall i :: 0 <= i < |ideas| ==> !NameMatches(ideas[i], name)
    ensures forall i :: FirstMatchAt(ideas, name, i) ==> FirstMatch(ideas, name) == Some(ideas[i].fields)
    decreases |ideas|
  {
    if ideas != [] {
      var rest := ideas[1..];
      FirstMatchSpec(rest, name);
      assert forall i :: 1 <= i < |ideas| ==> rest[i - 1] == ideas[i];
      forall i | FirstMatchAt(ideas, name, i) && i > 0
        ensures FirstMatch(ideas, name) == Some(ideas[i].fields)
      {
        assert FirstMatchAt(rest, name, i - 1);
      }
    }
  }

  /** The search loop of the processing step: stop at the first idea whose `Name` matches. */
  method FindIdeaData(ideas: seq<Json>, name: string) returns (found: Option<map<string, Json>>)
    requires AllObjects(ideas)
    ensures found == FirstMatch(ideas, name)
    ensures found.None? <==> forall i :: 0 <= i < |ideas| ==> !NameMatches(ideas[i], name)
    ensures found.Some? ==>
      exists i :: 0 <= i < |ideas| && NameMatches(ideas[i], name) && found.value == ideas[i].fields
        && forall j :: 0 <= j < i ==> !NameMatches(ideas[j], name)
  {
    found := None;
    var i := 0;
    while i < |ideas|
      invariant 0 <= i <= |ideas|
      invariant forall j :: 0 <= j < i ==> !NameMatches(ideas[j], name)
      invariant FirstMatch(ideas, name) == FirstMatch(ideas[i..], name)
    {
      assert ideas[i..][1..] == ideas[i + 1..];
      if NameMatches(ideas[i], name) {
        found := Some(ideas[i].fields);
        break;
      }
      i := i + 1;
    }
  }

  const NoDescription: string := "No description available."

  /** An entry of `processed_ideas`. */
  datatype ProcessedIdea = ProcessedIdea(
    name: string,
    displayName: string,
    title: Json,
    description: Json,
    metricValue: real,
    path: Path)

  function MetricOfIdea(p: ProcessedIdea): real {
    p.metricValue
  }

  /** The entry built from a catalog record and the idea data found for it, if any. */
  function ToProcessed(r: IdeaResult, data: Option<map<string, Json>>): (p: ProcessedIdea)
    ensures p.name == r.idea && p.metricValue == r.metricValue && p.path == r.path
    ensures p.displayName == DisplayName(r.idea)
    ensures data.None? ==> p.title == Str(p.displayName) && p.description == Str(NoDescription)
    ensures data.Some? ==> p.title == Get(data.value, "Title", Str(p.displayName))
    ensures data.Some? ==> p.description == Get(data.value, "Idea", Str(NoDescription))
  {
    var display := DisplayName(r.idea);
    ProcessedIdea(
      r.idea,
      display,
      if data.Some? then Get(data.value, "Title", Str(display)) else Str(display),
      if data.Some? then Get(data.value, "Idea", Str(NoDescription)) else Str(NoDescription),
      r.metricValue,
      r.path)
  }

  /** The entry the processing step appends for a catalog record. */
  function ProcessedFor(r: IdeaResult, ideas: seq<Json>): ProcessedIdea
    requires AllObjects(ideas)
  {
    ToProcessed(r, FirstMatch(ideas, r.idea))
  }

  /**
   * The entry appended for a record whose idea is the `i`-th of the ideas
   * list, the first one with that `Name`: its title and description are
   * that idea's `Title` and `Idea` where present, and the display name and
   * the stock description otherwise.
   */
  lemma ProcessedForSpec(r: IdeaResult, ideas: seq<Json>, i: nat)
    requires AllObjects(ideas)
    requires FirstMatchAt(ideas, r.idea, i)
    ensures var p := ProcessedFor(r, ideas);
      var f := ideas[i].fields;
      && p.name == r.idea && p.metricValue == r.metricValue && p.path == r.path
      && p.title == (if "Title" in f then f["Title"] else Str(DisplayName(r.idea)))
      && p.description == (if "Idea" in f then f["Idea"] else Str(NoDescription))
  {
    FirstMatchSpec(ideas, r.idea);
  }

  /** The entry appended for a record whose idea no item of the ideas list names. */
  lemma ProcessedForNoMatch(r: IdeaResult, ideas: seq<Json>)
    requires AllObjects(ideas)
    requires forall j :: 0 <= j < |ideas| ==> !NameMatches(ideas[j], r.idea)
    ensures var p := ProcessedFor(r, ideas);
      && p.name == r.idea && p.metricValue == r.metricValue && p.path == r.path
      && p.title == Str(DisplayName(r.idea)) && p.description == Str(NoDescription)
  {
    FirstMatchSpec(ideas, r.idea);
  }
}
