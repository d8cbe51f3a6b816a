/** The mapping from an InterProScan XML result to sequence annotations.
    The XML text, its DOM and the XPath queries are replaced by the abstract
    document they denote: an optional `Doc` (absent when the text could not be
    parsed), which says whether a `protein` element exists and lists the
    elements under `matches` in document order. */
module ResultParser {
  import opened Common
  import opened Options

  /** The InterPro entry a signature is integrated into (attributes ac, name, type). */
  datatype Entry = Entry(ac: string, name: string, kind: string)

  /** One location of a match, with its parsed start and end attributes. */
  datatype Location = Location(start: int, end: int)

  /** One element under `matches`: its signature's `ac`, optional `name` and
      optional `entry`, the signature library's `library` and the locations. */
  datatype Match = Match(
    ac: string,
    name: Option<string>,
    entry: Option<Entry>,
    library: string,
    locations: seq<Location>)

  /** A parsed result document. */
  datatype Doc = Doc(hasProtein: bool, matches: seq<Match>)

  /** A strand-less interval on the sequence. */
  datatype Interval = Interval(start: int, end: int)

  datatype Qualifier = Qualifier(key: string, value: string)

  /** A sequence annotation: its name, its type, its qualifiers in insertion order, its intervals. */
  datatype Annotation = Annotation(
    name: string,
    kind: string,
    qualifiers: seq<Qualifier>,
    intervals: seq<Interval>)

  const InterProTermType: string := "InterPro Term"
  const ErrorName: string := "InterProScan Error"
  const NoResultsName: string := "No InterProScan Results"
  const UnknownName: string := "unknown"
  const Unintegrated: string := "Unintegrated"
  const EntryUrl: string := "http://www.ebi.ac.uk/interpro/entry/"

  /** The library names that are shown in mixed case. */
  const CanonicalDbNames: map<string, string> := map[
    "SIGNALP" := "SignalP",
    "PFAM" := "Pfam",
    "SUPERFAMILY" := "Superfamily",
    "GENE3D" := "Gene3D",
    "PRODOM" := "ProDom",
    "PANTHER" := "Panther"
  ]

  /** The display form of a signature library name: the six names of the
      table are rewritten, every other name is returned unchanged. */
  function PrettyDbName(dbName: string): (pretty: string)
    ensures dbName in CanonicalDbNames ==> pretty == CanonicalDbNames[dbName]
    ensures dbName !in CanonicalDbNames ==> pretty == dbName
  {
    if dbName == "SIGNALP" then "SignalP"
    else if dbName == "PFAM" then "Pfam"
    else if dbName == "SUPERFAMILY" then "Superfamily"
    else if dbName == "GENE3D" then "Gene3D"
    else if dbName == "PRODOM" then "ProDom"
    else if dbName == "PANTHER" then "Panther"
    else dbName
  }

  /** The entry of a match, or the placeholder for a signature not yet integrated into InterPro. */
  function InterProEntry(m: Match): Entry {
    match m.entry
    case Some(e) => e
    case None => Entry("", Unintegrated, Unintegrated)
  }

  /** An InterPro accession rendered as a link to its entry page. */
  function InterProLink(id: string): string {
    "<a href=\"" + EntryUrl + id + "\">" + id + "</a>"
  }

  function MatchName(m: Match): string {
    m.name.GetOr(UnknownName)
  }

  /** One interval per location, in order. */
  function LocationIntervals(locations: seq<Location>): (intervals: seq<Interval>)
    ensures |intervals| == |locations|
    ensures forall j :: 0 <= j < |locations| ==>
      intervals[j] == Interval(locations[j].start, locations[j].end)
  {
    if locations == [] then []
    else
      var last := locations[|locations| - 1];
      LocationIntervals(locations[..|locations| - 1]) + [Interval(last.start, last.end)]
  }

  /** The annotation made for one match. */
  function MatchAnnotation(m: Match, mode: string): Annotation {
    var e := InterProEntry(m);
    Annotation(
      MatchName(m),
      PrettyDbName(m.library),
      [Qualifier("Database", m.library), Qualifier("Id", m.ac), Qualifier("Name", MatchName(m))]
        + (if mode == FeatQualifiers
           then [Qualifier("InterPro ID", InterProLink(e.ac)),
                 Qualifier("InterPro Name", e.name),
                 Qualifier("InterPro Type", e.kind)]
           else []),
      LocationIntervals(m.locations))
  }

  /** The whole-sequence annotation for the InterPro entry of one match ("separately" mode). */
  function InterProTermAnnotation(m: Match, seqLength: int): Annotation {
    var e := InterProEntry(m);
    Annotation(
      e.name,
      InterProTermType,
      [Qualifier("id", InterProLink(e.ac)), Qualifier("type", e.kind)],
      [Interval(1, seqLength)])
  }

  /** A whole-sequence marker annotation without qualifiers. */
  function Placeholder(name: string, seqLength: int): Annotation {
    Annotation(name, InterProTermType, [], [Interval(1, seqLength)])
  }

  /** How many annotations one match yields in a display mode. */
  function Width(mode: string): nat {
    if mode == FeatSeparate then 2 else 1
  }

  /** The annotations of one match, in the order they are added. */
  function MatchAnnotations(m: Match, mode: string, seqLength: int): seq<Annotation> {
    [MatchAnnotation(m, mode)]
      + (if mode == FeatSeparate then [InterProTermAnnotation(m, seqLength)] else [])
  }

  /** The annotations of a list of matches: each match contributes exactly
      `Width(mode)` annotations, in match order. */
  function AnnotateMatches(matches: seq<Match>, mode: string, seqLength: int): (r: seq<Annotation>)
    ensures |r| == Width(mode) * |matches|
  {
    if matches == [] then []
    else
      AnnotateMatches(matches[..|matches| - 1], mode, seqLength)
        + MatchAnnotations(matches[|matches| - 1], mode, seqLength)
  }

  /** The annotations produced for a result: a placeholder or nothing when the
      document is absent or has no protein, else `Width(mode)` per match. */
  function Annotate(doc: Option<Doc>, mode: string, makeExtraFeats: bool, seqLength: int): (r: seq<Annotation>)
    ensures doc.None? ==>
      && |r| == (if makeExtraFeats then 1 else 0)
      && forall a :: a in r ==> a == Placeholder(ErrorName, seqLength)
    ensures doc.Some? && !doc.value.hasProtein ==>
      && |r| == (if makeExtraFeats then 1 else 0)
      && forall a :: a in r ==> a == Placeholder(NoResultsName, seqLength)
    ensures doc.Some? && doc.value.hasProtein ==> |r| == Width(mode) * |doc.value.matches|
  {
    match doc
    case None =>
      if makeExtraFeats then [Placeholder(ErrorName, seqLength)] else []
    case Some(d) =>
      if d.hasProtein then AnnotateMatches(d.matches, mode, seqLength)
      else if makeExtraFeats then [Placeholder(NoResultsName, seqLength)]
      else []
  }

  /** A document with a protein but no matches yields no annotation, not
      even the "no results" placeholder, whatever the extra-features flag. */
  lemma ProteinWithoutMatches(mode: string, makeExtraFeats: bool, seqLength: int)
    ensures Annotate(Some(Doc(true, [])), mode, makeExtraFeats, seqLength) == []
  {
  }

  /** The annotations of match i sit at position Width(mode) * i: first the
      match annotation, then, in "separately" mode, its InterPro term. */
  lemma {:induction false} AnnotateMatchesAt(matches: seq<Match>, mode: string, seqLength: int, i: nat)
    requires i < |matches|
    ensures AnnotateMatches(matches, mode, seqLength)[Width(mode) * i] == MatchAnnotation(matches[i], mode)
    ensures mode == FeatSeparate ==>
      AnnotateMatches(matches, mode, seqLength)[2 * i + 1] == InterProTermAnnotation(matches[i], seqLength)
  {
    var n := |matches|;
    var init := matches[..n - 1];
    var front := AnnotateMatches(init, mode, seqLength);
    assert AnnotateMatches(matches, mode, seqLength)
      == front + MatchAnnotations(matches[n - 1], mode, seqLength);
    if i < n - 1 {
      AnnotateMatchesAt(init, mode, seqLength, i);
      assert init[i] == matches[i];
    } else {
      assert |front| == Width(mode) * i;
    }
  }

  /** What a match annotation carries: named after the signature (or
      "unknown"), typed by the display form of its library, qualifiers
      Database, Id, Name in that order, the three InterPro qualifiers exactly
      in "qualifiers" mode (with the "Unintegrated" defaults when the signature
      has no entry), and one interval per location in document order. */
  lemma MatchAnnotationShape(m: Match, mode: string)
    ensures var a := MatchAnnotation(m, mode);
      && a.name == (if m.name.Some? then m.name.value else UnknownName)
      && a.kind == PrettyDbName(m.library)
      && a.qualifiers[..3] == [Qualifier("Database", m.library), Qualifier("Id", m.ac), Qualifier("Name", a.name)]
      && (mode != FeatQualifiers ==> |a.qualifiers| == 3)
      && (mode == FeatQualifiers ==>
          && |a.qualifiers| == 6
          && a.qualifiers[3].key == "InterPro ID"
          && a.qualifiers[4].key == "InterPro Name"
          && a.qualifiers[5].key == "InterPro Type")
      && (mode == FeatQualifiers && m.entry.None? ==>
          a.qualifiers[3..] == [Qualifier("InterPro ID", InterProLink("")),
                                Qualifier("InterPro Name", Unintegrated),
                                Qualifier("InterPro Type", Unintegrated)])
      && (mode == FeatQualifiers && m.entry.Some? ==>
          a.qualifiers[3..] == [Qualifier("InterPro ID", InterProLink(m.entry.value.ac)),
                                Qualifier("InterPro Name", m.entry.value.name),
                                Qualifier("InterPro Type", m.entry.value.kind)])
      && |a.intervals| == |m.locations|
      && (forall j :: 0 <= j < |m.locations| ==>
          a.intervals[j] == Interval(m.locations[j].start, m.locations[j].end))
  {
  }

  /** In the default display mode each match yields exactly one annotation,
      and that annotation carries the InterPro qualifiers. */
  lemma {:induction false} DefaultModeOnePerMatch(d: Doc, makeExtraFeats: bool, seqLength: int)
    requires d.hasProtein
    ensures |Annotate(Some(d), FeatQualifiers, makeExtraFeats, seqLength)| == |d.matches|
    ensures forall i :: 0 <= i < |d.matches| ==>
      |Annotate(Some(d), FeatQualifiers, makeExtraFeats, seqLength)[i].qualifiers| == 6
  {
    forall i | 0 <= i < |d.matches|
      ensures |Annotate(Some(d), FeatQualifiers, makeExtraFeats, seqLength)[i].qualifiers| == 6
    {
      AnnotateMatchesAt(d.matches, FeatQualifiers, seqLength, i);
    }
  }

  /** The body of the match loop of the parser: the annotation of one match,
      its intervals added location by location, followed in "separately" mode
      by the InterPro term annotation. */
  method MapMatch(m: Match, mode: string, seqLength: int) returns (added: seq<Annotation>)
    ensures added == MatchAnnotations(m, mode, seqLength)
  {
    var matchName := if m.name.Some? then m.name.value else UnknownName;
    var iprId, iprName, iprType;
    if m.entry.None? {
      iprId, iprName, iprType := "", Unintegrated, Unintegrated;
    } else {
      iprId, iprName, iprType := m.entry.value.ac, m.entry.value.name, m.entry.value.kind;
    }
    var qualifiers := [Qualifier("Database", m.library), Qualifier("Id", m.ac), Qualifier("Name", matchName)];
    if mode == FeatQualifiers {
      qualifiers := qualifiers + [Qualifier("InterPro ID", InterProLink(iprId)),
                                  Qualifier("InterPro Name", iprName),
                                  Qualifier("InterPro Type", iprType)];
    }
    var intervals: seq<Interval> := [];
    for l := 0 to |m.locations|
      invariant intervals == LocationIntervals(m.locations[..l])
    {
      assert m.locations[..l + 1][..l] == m.locations[..l];
      intervals := intervals + [Interval(m.locations[l].start, m.locations[l].end)];
    }
    assert m.locations[..|m.locations|] == m.locations;
    assert Entry(iprId, iprName, iprType) == InterProEntry(m);
    var annotation := Annotation(matchName, PrettyDbName(m.library), qualifiers, intervals);
    assert annotation == MatchAnnotation(m, mode);
    added := [annotation];
    if mode == FeatSeparate {
      var iprAnnotation := Annotation(iprName, InterProTermType,
                                      [Qualifier("id", InterProLink(iprId)), Qualifier("type", iprType)],
                                      [Interval(1, seqLength)]);
      assert iprAnnotation == InterProTermAnnotation(m, seqLength);
      added := added + [iprAnnotation];
    }
  }

  /** The parser of one result, configured through its setters. */
  class XmlParser {
    /** The parsed document, `None` when the text was absent or malformed. */
    var doc: Option<Doc>
    /** The display mode; `None` until set, as the field starts out null. */
    var featType: Option<string>
    var makeExtraFeats: bool
    var seqLength: int

    constructor (parsed: Option<Doc>)
      ensures doc == parsed && featType == None && makeExtraFeats && seqLength == 0
    {
      doc := parsed;
      featType := None;
      makeExtraFeats := true;
      seqLength := 0;
    }

    method SetFeatType(featType: string)
      modifies this
      ensures this.featType == Some(featType)
      ensures doc == old(doc) && makeExtraFeats == old(makeExtraFeats) && seqLength == old(seqLength)
    {
      this.featType := Some(featType);
    }

    method SetMakeExtraFeats(makeExtraFeats: bool)
      modifies this
      ensures this.makeExtraFeats == makeExtraFeats
      ensures doc == old(doc) && featType == old(featType) && seqLength == old(seqLength)
    {
      this.makeExtraFeats := makeExtraFeats;
    }

    method SetSeqLength(seqLength: int)
      modifies this
      ensures this.seqLength == seqLength
      ensures doc == old(doc) && featType == old(featType) && makeExtraFeats == old(makeExtraFeats)
    {
      this.seqLength := seqLength;
    }

    /** The display mode is read only while mapping a match, so it need only
        be set when the document has a protein and at least one match. */
    predicate ModeSetWhereRead()
      reads this
    {
      featType.Some? || doc.None? || !doc.value.hasProtein || doc.value.matches == []
    }

    /** Maps the document to annotations; an unset mode (possible only when
        no match is mapped) is passed on as "". */
    method ParseXml() returns (result: seq<Annotation>)
      requires ModeSetWhereRead()
      ensures result == Annotate(doc, featType.GetOr(""), makeExtraFeats, seqLength)
    {
      result := [];
      if doc.None? {
        if makeExtraFeats {
          result := result + [Placeholder(ErrorName, seqLength)];
        }
      } else {
        var d := doc.value;
        if d.hasProtein {
          var mode := featType.GetOr("");
          for i := 0 to |d.matches|
            invariant result == AnnotateMatches(d.matches[..i], mode, seqLength)
          {
            var added := MapMatch(d.matches[i], mode, seqLength);
            result := result + added;
            assert d.matches[..i + 1][..i] == d.matches[..i];
          }
          assert d.matches[..|d.matches|] == d.matches;
        } else if makeExtraFeats {
          result := result + [Placeholder(NoResultsName, seqLength)];
        }
      }
    }
  }
}
