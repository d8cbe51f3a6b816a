/** The user options of an InterProScan run: the feature display mode, the
    extra-feature, goterms and pathways flags, and one on/off switch per
    member-database application. Only their defaults and the selection of
    applications are modelled; the options panel itself is not. */
module Options {
  import opened Common

  /** Display mode: every InterPro term becomes a separate whole-sequence feature. */
  const FeatSeparate: string := "separately"
  /** Display mode: InterPro terms become qualifiers of the match features. */
  const FeatQualifiers: string := "qualifiers"

  /** The member-database applications offered to the user, in display order. */
  const DatabaseNames: seq<string> := [
    "CDD",          "Phobius",         "SignalP_EUK",
    "Coils",        "PIRSF",           "SignalP_GRAM_NEGATIVE",
    "Gene3d",       "PRINTS",          "SignalP_GRAM_POSITIVE",
    "HAMAP",        "PrositePatterns", "SMART",
    "MobiDBLite",   "PrositeProfiles", "SuperFamily",
    "Panther",      "SFLD",            "NCBIfam",
    "PfamA",        "SignalP",         "TMHMM"
  ]

  /** The fixed list holds 21 names, none of them twice. */
  lemma DatabaseNamesDistinct()
    ensures |DatabaseNames| == 21
    ensures Distinct(DatabaseNames)
  {
    forall i, j | 0 <= i < j < |DatabaseNames| ensures DatabaseNames[i] != DatabaseNames[j] {
    }
  }

  /** Every application switched on, as the options are built. */
  function DefaultDatabases(): (m: map<string, bool>)
    ensures forall n :: n in DatabaseNames ==> n in m && m[n]
  {
    map n | n in DatabaseNames :: true
  }

  /** The names of `names` whose switch in `databases` is on, in the order of `names`. */
  function Selected(names: seq<string>, databases: map<string, bool>): (apps: seq<string>)
    requires forall n :: n in names ==> n in databases
    ensures forall n :: n in apps <==> n in names && databases[n]
    ensures |apps| <= |names|
  {
    if names == [] then []
    else
      var init, last := names[..|names| - 1], names[|names| - 1];
      assert forall n :: n in names <==> n in init || n == last by {
        assert names == init + [last];
      }
      Selected(init, databases) + (if databases[last] then [last] else [])
  }

  /** The selection keeps the relative order of the names it keeps. */
  lemma {:induction false} SelectedIsSubsequence(names: seq<string>, databases: map<string, bool>)
    requires forall n :: n in names ==> n in databases
    ensures IsSubsequence(Selected(names, databases), names)
  {
    if names != [] {
      var init, last := names[..|names| - 1], names[|names| - 1];
      assert forall n :: n in init ==> n in names;
      var s := Selected(init, databases);
      SelectedIsSubsequence(init, databases);
      assert names[..|names| - 1] == init;
      if databases[last] {
        assert Selected(names, databases) == s + [last];
        assert (s + [last])[..|s|] == s;
      } else {
        assert Selected(names, databases) == s;
      }
    }
  }

  /** Selecting from names that are pairwise distinct gives names that are pairwise distinct. */
  lemma {:induction false} SelectedDistinct(names: seq<string>, databases: map<string, bool>)
    requires forall n :: n in names ==> n in databases
    requires Distinct(names)
    ensures Distinct(Selected(names, databases))
  {
    if names != [] {
      var init, last := names[..|names| - 1], names[|names| - 1];
      assert forall n :: n in init ==> n in names;
      SelectedDistinct(init, databases);
      assert last !in init by {
        forall i | 0 <= i < |init| ensures init[i] != last {
          assert names[i] == init[i];
        }
      }
    }
  }

  /** When every switch is on, the selection is the whole list. */
  lemma {:induction false} AllSelected(names: seq<string>, databases: map<string, bool>)
    requires forall n :: n in names ==> n in databases && databases[n]
    ensures Selected(names, databases) == names
  {
    if names != [] {
      var init, last := names[..|names| - 1], names[|names| - 1];
      assert names == init + [last];
      assert forall n :: n in init ==> n in names;
      AllSelected(init, databases);
      assert Selected(names, databases) == Selected(init, databases) + [last];
    }
  }

  /** The applications run by default: all 21 of them, in display order. */
  lemma DefaultSelectionIsFullList()
    ensures Selected(DatabaseNames, DefaultDatabases()) == DatabaseNames
  {
    AllSelected(DatabaseNames, DefaultDatabases());
  }

  /** Whatever the switches, the selection is an order-preserving choice of
      at most 21 distinct application names. */
  lemma SelectionShape(databases: map<string, bool>)
    requires forall n :: n in DatabaseNames ==> n in databases
    ensures IsSubsequence(Selected(DatabaseNames, databases), DatabaseNames)
    ensures Distinct(Selected(DatabaseNames, databases))
    ensures |Selected(DatabaseNames, databases)| <= 21
  {
    DatabaseNamesDistinct();
    SelectedIsSubsequence(DatabaseNames, databases);
    SelectedDistinct(DatabaseNames, databases);
  }

  class InterproscanOptions {
    var emailAddress: string
    var goTerms: bool
    var pathways: bool
    var extraFeature: bool
    var featureType: string
    /** One switch per application name. */
    var databases: map<string, bool>

    /** Every listed application has its switch. */
    ghost predicate Valid()
      reads this
    {
      forall n :: n in DatabaseNames ==> n in databases
    }

    /** Builds the options with their default values, one option at a time. */
    constructor ()
      ensures Valid()
      ensures emailAddress == ""
      ensures !goTerms && !pathways && !extraFeature
      ensures featureType == FeatQualifiers
      ensures databases == DefaultDatabases()
    {
      emailAddress := "";
      goTerms := false;
      pathways := false;
      extraFeature := false;
      // The chosen value's name; the host API's rendering of it is assumed to be that name.
      featureType := FeatQualifiers;
      var switches: map<string, bool> := map[];
      for i := 0 to |DatabaseNames|
        invariant switches == map n | n in DatabaseNames[..i] :: true
      {
        assert DatabaseNames[..i + 1] == DatabaseNames[..i] + [DatabaseNames[i]];
        switches := switches[DatabaseNames[i] := true];
      }
      assert DatabaseNames[..|DatabaseNames|] == DatabaseNames;
      databases := switches;
    }

    /** The names of the applications switched on, in display order. */
    method GetSelectedInterProApps() returns (apps: seq<string>)
      requires Valid()
      ensures apps == Selected(DatabaseNames, databases)
    {
      apps := [];
      for i := 0 to |DatabaseNames|
        invariant forall n :: n in DatabaseNames[..i] ==> n in databases
        invariant apps == Selected(DatabaseNames[..i], databases)
      {
        var name := DatabaseNames[i];
        assert DatabaseNames[..i + 1][..i] == DatabaseNames[..i];
        assert forall n :: n in DatabaseNames[..i + 1] ==> n in DatabaseNames;
        if databases[name] {
          apps := apps + [name];
        }
      }
      assert DatabaseNames[..|DatabaseNames|] == DatabaseNames;
    }
  }
}
