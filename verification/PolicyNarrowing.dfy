/** What adding policies can change: exactly when it turns no denial into an approval. */
module PolicyNarrowing {
  import opened Collections
  import opened Sorting
  import opened Text
  import opened PolicyCompiler
  import opened PolicyEvaluator
  import opened PolicyMeaning

  ghost predicate Within(rules: seq<Rule>, more: seq<Rule>) {
    forall r :: r in rules ==> r in more
  }

  // ---------------------------------------------------------------- one list of names

  /** No allowlist that restricted something has become empty. */
  ghost predicate StillRestricts(rules: seq<Rule>, more: seq<Rule>, d: Dimension) {
    Restricted(rules, d) ==> Restricted(more, d)
  }

  /** An allowlist may become empty all the same if an empty entry made it cover every model, or if
      an empty deny entry now does. */
  ghost predicate ListKept(rules: seq<Rule>, more: seq<Rule>, d: Dimension) {
    StillRestricts(rules, more, d) || ForbidsAll(more, d) || (d == Model && Common(rules, Model, ""))
  }

  lemma MoreForbidden(rules: seq<Rule>, more: seq<Rule>, d: Dimension, x: string)
    requires Within(rules, more)
    ensures Forbidden(rules, d, x) ==> Forbidden(more, d, x)
  {
    hide Denies, Listed;
  }

  lemma MoreOutside(rules: seq<Rule>, more: seq<Rule>, d: Dimension, x: string)
    requires Within(rules, more) && StillRestricts(rules, more, d) && Outside(rules, d, x)
    ensures Outside(more, d, x)
  {
    hide Matches, Allows, NormSet;
    forall e | Common(more, d, e) ensures Common(rules, d, e) {
    }
  }

  lemma KeptRefusal(rules: seq<Rule>, more: seq<Rule>, d: Dimension, x: string)
    requires Within(rules, more) && ListKept(rules, more, d) && Refused(rules, d, x)
    ensures Refused(more, d, x)
  {
    hide Allows, Denies, NormSet, Listed;
    MoreForbidden(rules, more, d, x);
    assert Matches(Model, "", x);
    if Outside(rules, d, x) {
      if StillRestricts(rules, more, d) {
        MoreOutside(rules, more, d, x);
      } else {
        AllForbidden(more, x);
      }
    }
  }

  /** A name that was refused and no longer is. */
  lemma LostRefusal(rules: seq<Rule>, more: seq<Rule>, d: Dimension)
    requires Within(rules, more) && !ListKept(rules, more, d)
    ensures Refused(rules, d, Outsider(more, d)) && !Refused(more, d, Outsider(more, d))
  {
    hide Allows, Denies, NormSet, Listed, Outsider, Matches, Norm;
    var x := Outsider(more, d);
    var r :| r in rules && Allows(r, d);
    assert Collapsed(more, d);
    CollapsedOutsider(more, d);
    CollapsedOpens(more, d, x);
    forall e | Common(rules, d, e) ensures !Matches(d, e, x) {
      NotCommonOutside(rules, more, d, e, r);
    }
  }

  lemma NotCommonOutside(rules: seq<Rule>, more: seq<Rule>, d: Dimension, e: string, r: Rule)
    requires Within(rules, more) && r in rules && Allows(r, d)
    requires Common(rules, d, e) && (d == Model ==> e != "")
    ensures !Matches(d, e, Outsider(more, d))
  {
    hide Allows, RegionMatches, Unnamed;
    var n :| n in r.value.texts && e == Norm(d, n);
    if d == Model {
      NormNorm(d, n);
    } else if Matches(d, e, Outsider(more, d)) {
      OutsiderIsNotListed(more, d, r);
      ListedNorm(d, r.value.texts, Outsider(more, d));
      assert false;
    }
  }

  /** More rules refuse no less, whatever the name, exactly when no allowlist that restricted
      something becomes empty (but for models covered, or forbidden, by an empty entry). */
  lemma RefusalsAreKept(rules: seq<Rule>, more: seq<Rule>, d: Dimension)
    requires Within(rules, more)
    ensures (forall x :: Refused(rules, d, x) ==> Refused(more, d, x)) <==> ListKept(rules, more, d)
  {
    hide Refused, ListKept;
    if ListKept(rules, more, d) {
      forall x | Refused(rules, d, x) ensures Refused(more, d, x) {
        KeptRefusal(rules, more, d, x);
      }
    } else {
      LostRefusal(rules, more, d);
    }
  }

  // ---------------------------------------------------------------- lists that let nothing through

  /** Whatever the allowlist covers is forbidden. */
  ghost predicate NonePasses(rules: seq<Rule>, d: Dimension) {
    ForbidsAll(rules, d) || (Restricted(rules, d) && forall e :: Common(rules, d, e) ==> Forbidden(rules, d, e))
  }

  lemma CommonEntry(rules: seq<Rule>, d: Dimension, e: string)
    requires d != Region && HasAllow(rules, d) && Common(rules, d, e)
    ensures Norm(d, e) == e && Matches(d, e, e)
  {
    hide Allows;
    var r :| r in rules && Allows(r, d);
    var n :| n in r.value.texts && e == Norm(d, n);
    NormNorm(d, n);
  }

  lemma NonePassesRefused(rules: seq<Rule>, d: Dimension, x: string)
    requires d != Region && NonePasses(rules, d)
    ensures Refused(rules, d, x)
  {
    hide Allows, Denies, NormSet, Listed, Norm;
    if ForbidsAll(rules, d) {
      AllForbidden(rules, x);
    } else if !Outside(rules, d, x) {
      var e :| Common(rules, d, e) && Matches(d, e, x);
      CommonEntry(rules, d, e);
      if d == Model {
        var r :| r in rules && Denies(r, d) && Listed(d, r.value.texts, e);
        PrefixListed(r.value.texts, e, x);
      }
    }
  }

  /** A name that passes, where some name does. */
  lemma SomePasses(rules: seq<Rule>, d: Dimension) returns (x: string)
    requires d != Region && !NonePasses(rules, d)
    ensures Norm(d, x) == x && !Refused(rules, d, x) && (d != Model && !Restricted(rules, d) ==> x != "")
  {
    hide Allows, Denies, NormSet, Listed, Norm, Unnamed, Matches;
    if Restricted(rules, d) {
      var e :| Common(rules, d, e) && !Forbidden(rules, d, e);
      CommonEntry(rules, d, e);
      x := e;
    } else {
      x := Outsider(rules, d);
      OutsiderFolded(rules, d);
      NotForbiddenOutside(rules, d);
    }
  }

  lemma OutsiderFolded(rules: seq<Rule>, d: Dimension)
    ensures Norm(d, Outsider(rules, d)) == Outsider(rules, d) && (d != Model ==> Outsider(rules, d) != "")
  {
  }

  lemma NotForbiddenOutside(rules: seq<Rule>, d: Dimension)
    requires !ForbidsAll(rules, d)
    ensures !Forbidden(rules, d, Outsider(rules, d))
  {
    hide Denies, NormSet, Listed, Unnamed;
    if d != Model {
      forall r | r in rules ensures !Listed(d, r.value.texts, Outsider(rules, d)) {
        OutsiderIsNotListed(rules, d, r);
      }
    }
  }

  /** Nothing passes, whatever the name, exactly when all that the allowlist covers is forbidden. */
  lemma NothingPasses(rules: seq<Rule>, d: Dimension)
    requires d != Region
    ensures (forall x :: Refused(rules, d, x)) <==> NonePasses(rules, d)
  {
    hide Refused, NonePasses;
    if NonePasses(rules, d) {
      forall x ensures Refused(rules, d, x) {
        NonePassesRefused(rules, d, x);
      }
    } else {
      var x := SomePasses(rules, d);
    }
  }

  // ---------------------------------------------------------------- requests

  /** No request could use a tool anyway. */
  ghost predicate NoToolPasses(rules: seq<Rule>) {
    Disabled(rules, Tools) || Over(rules, MaxTools, 1.0)
  }

  /** The lists a request is checked against are kept. */
  ghost predicate RequestListsKept(rules: seq<Rule>, more: seq<Rule>) {
    && ListKept(rules, more, Model)
    && ListKept(rules, more, ModelFamily)
    && ListKept(rules, more, ModelCategory)
    && ListKept(rules, more, InputModality)
    && ListKept(rules, more, DataClassification)
    && (ListKept(rules, more, ToolName) || NoToolPasses(more))
  }

  lemma MoreRules(rules: seq<Rule>, more: seq<Rule>)
    requires Within(rules, more)
    ensures forall d, x :: Forbidden(rules, d, x) ==> Forbidden(more, d, x)
    ensures forall f :: Disabled(rules, f) ==> Disabled(more, f)
    ensures forall l :: Capped(rules, l) ==> Capped(more, l)
    ensures forall l, n :: Over(rules, l, n) ==> Over(more, l, n)
  {
    hide Forbidden;
    forall d, x ensures Forbidden(rules, d, x) ==> Forbidden(more, d, x) {
      MoreForbidden(rules, more, d, x);
    }
  }

  lemma OverMore(rules: seq<Rule>, l: Limit, m: real, n: real)
    requires Over(rules, l, m) && m <= n
    ensures Over(rules, l, n)
  {
    var r :| r in rules && Caps(r, l) && m > r.value.number.value;
  }

  lemma NoToolInUse(rules: seq<Rule>, ctx: Context)
    requires NoToolPasses(rules) && ToolNames(ctx) != []
    ensures !UsePermitted(ctx, rules)
  {
    hide ToolNames, Disabled, Over;
    if Over(rules, MaxTools, 1.0) {
      OverMore(rules, MaxTools, 1.0, |ToolNames(ctx)| as real);
    }
  }

  lemma MoreRulesNarrow(rules: seq<Rule>, more: seq<Rule>, ctx: Context)
    requires Within(rules, more) && RequestListsKept(rules, more)
    requires RequestPermitted(ctx, more)
    ensures RequestPermitted(ctx, rules)
  {
    hide Refused, Forbidden, Disabled, Over, ToolNames, Lower, Within, ListKept, NoToolPasses;
    MoreRules(rules, more);
    RefusalsAreKept(rules, more, Model);
    RefusalsAreKept(rules, more, ModelFamily);
    RefusalsAreKept(rules, more, ModelCategory);
    RefusalsAreKept(rules, more, InputModality);
    RefusalsAreKept(rules, more, DataClassification);
    RefusalsAreKept(rules, more, ToolName);
    if NoToolPasses(more) && ToolNames(ctx) != [] {
      NoToolInUse(more, ctx);
    }
  }

  /** A request that shows the name `x` to the check of dimension `d`, and to no other. */
  function Probe(id: string, d: Dimension, x: string): Context {
    var bare := Context(if d == Model then x else id, None, None, Some([]), Some([]), None, false, false, None, None,
                        None, None);
    match d
    case ModelFamily => bare.(family := Some(x))
    case ModelCategory => bare.(category := Some(x))
    case InputModality => bare.(inputModalities := Some([x]))
    case ToolName => bare.(tools := Some([x]))
    case DataClassification => bare.(dataClassification := Some(x))
    case _ => bare
  }

  lemma ProbeDecides(rules: seq<Rule>, id: string, d: Dimension, x: string)
    requires Lower(id) == id && (d != Model ==> x != "") && Lower(x) == x && Lower(Trim(x)) == x
    requires d != OutputModality && d != Provider && d != Region
    requires d == ToolName ==> !NoToolPasses(rules)
    ensures RequestPermitted(Probe(id, d, x), rules)
       <==> !Refused(rules, d, x) && (d != Model ==> !Refused(rules, Model, id))
  {
    hide Refused, Forbidden, Disabled, Over, Lower, Trim;
    var ctx := Probe(id, d, x);
    if d == ToolName {
      assert ToolNames(ctx) == [x];
    } else {
      assert ToolNames(ctx) == [];
    }
  }

  lemma OutsiderTrimmed(rules: seq<Rule>, d: Dimension)
    ensures Trim(Outsider(rules, d)) == Outsider(rules, d)
  {
    var x := Outsider(rules, d);
    assert x != [] ==> !IsSpace(x[0]) && !IsSpace(x[|x| - 1]);
  }

  lemma LostRequest(rules: seq<Rule>, more: seq<Rule>, d: Dimension) returns (ctx: Context)
    requires Within(rules, more) && !ListKept(rules, more, d) && !NonePasses(more, Model)
    requires d != OutputModality && d != Provider && d != Region
    requires d == ToolName ==> !NoToolPasses(more)
    ensures RequestPermitted(ctx, more) && !RequestPermitted(ctx, rules)
  {
    hide Refused, NonePasses, ListKept, RequestPermitted, Trim, Outsider, NoToolPasses, Probe;
    var id := SomePasses(more, Model);
    var x := Outsider(more, d);
    LostRefusal(rules, more, d);
    OutsiderFolded(more, d);
    OutsiderFolded(more, Model);
    OutsiderTrimmed(more, d);
    ctx := Probe(id, d, x);
    LowerOutsider(more, d);
    ProbeDecides(more, id, d, x);
    if d == ToolName && NoToolPasses(rules) {
      FewerTools(rules, more);
    }
    ProbeDecides(rules, id, d, x);
  }

  lemma LowerOutsider(rules: seq<Rule>, d: Dimension)
    ensures Lower(Outsider(rules, d)) == Outsider(rules, d)
  {
  }

  lemma FewerTools(rules: seq<Rule>, more: seq<Rule>)
    requires Within(rules, more) && NoToolPasses(rules)
    ensures NoToolPasses(more)
  {
    hide Disabled, Over;
    MoreRules(rules, more);
  }

  /** More rules turn no denial of a request into an approval exactly when the lists it is checked
      against are kept, or nothing is approved any more. */
  lemma RulesOnlyNarrow(rules: seq<Rule>, more: seq<Rule>)
    requires Within(rules, more)
    ensures (forall ctx :: RequestPermitted(ctx, more) ==> RequestPermitted(ctx, rules))
       <==> NonePasses(more, Model) || RequestListsKept(rules, more)
  {
    hide RequestPermitted, NonePasses, ListKept, NoToolPasses, Within;
    if NonePasses(more, Model) {
      forall ctx ensures !RequestPermitted(ctx, more) {
        NoModelNoRequest(more, ctx);
      }
    } else if RequestListsKept(rules, more) {
      forall ctx | RequestPermitted(ctx, more) ensures RequestPermitted(ctx, rules) {
        MoreRulesNarrow(rules, more, ctx);
      }
    } else {
      var d := if !ListKept(rules, more, Model) then Model
               else if !ListKept(rules, more, ModelFamily) then ModelFamily
               else if !ListKept(rules, more, ModelCategory) then ModelCategory
               else if !ListKept(rules, more, InputModality) then InputModality
               else if !ListKept(rules, more, DataClassification) then DataClassification
               else ToolName;
      var ctx := LostRequest(rules, more, d);
    }
  }

  lemma NoModelNoRequest(rules: seq<Rule>, ctx: Context)
    requires NonePasses(rules, Model)
    ensures !RequestPermitted(ctx, rules)
  {
    hide NonePasses, Refused, UsePermitted;
    NonePassesRefused(rules, Model, Lower(ctx.canonicalId));
  }

  // ---------------------------------------------------------------- residency

  predicate Unrequired(residency: Option<string>) {
    residency.None? || residency.value == ""
  }

  /** Whether requiring residency `b` in place of `a` lets in no other region: there was no
      requirement, or it is for the same place, or it was for one region (which lets in global
      routes) and now is for global routes. */
  predicate ResidencyKept(a: Option<string>, b: Option<string>) {
    || Unrequired(a)
    || (!Unrequired(b)
        && (Upper(a.value) == Upper(b.value) || (RegionGroup(Upper(a.value)).None? && Upper(b.value) == "GLOBAL")))
  }

  lemma ResidencyCovered(a: string, x: string)
    requires a != ""
    ensures Resident(Some(a), x) <==> Lower(x) in Covered(Region, a)
  {
    hide RegionGroup, RegionMatches, Covered;
    RegionCovered(a, x);
  }

  lemma SameName(a: string, b: string)
    ensures Upper(a) == Upper(b) <==> Lower(a) == Lower(b)
  {
    hide Upper, Lower;
    CaseFolding(a);
    CaseFolding(b);
  }

  /** The short names among the regions of a group tell which group it is. */
  lemma ShortNames(group: string, x: string)
    requires RegionGroup(group).Some? && x in RegionGroup(group).value
    ensures |x| >= 2
    ensures |x| == 2 && x[0] == 'e' ==> group == "EU"
    ensures |x| == 2 && x[0] == 'u' ==> group == "US"
    ensures |x| == 2 && x[0] == 'i' ==> group == "IN"
    ensures |x| == 4 ==> group == "APAC"
    ensures |x| == 6 ==> group == "GLOBAL"
  {
  }

  /** Every group has its own name among its regions, ... */
  lemma OwnName(group: string)
    requires RegionGroup(group).Some?
    ensures Lower(group) in RegionGroup(group).value
    ensures group == "EU" || group == "US" || group == "APAC" || group == "IN" || group == "GLOBAL"
  {
    assert Lower("EU") == "eu" && Lower("US") == "us" && Lower("APAC") == "apac";
    assert Lower("IN") == "in" && Lower("GLOBAL") == "global";
  }

  /** ... and it is in no other group. */
  lemma GroupsApart(a: string, b: string)
    requires RegionGroup(a).Some? && RegionGroup(b).Some?
    ensures Lower(b) in RegionGroup(b).value
    ensures Lower(b) in RegionGroup(a).value ==> a == b
    ensures "global" in RegionGroup(a).value ==> a == "GLOBAL"
  {
    OwnName(b);
    FirstLetter(b);
    hide RegionGroup, Lower;
    if Lower(b) in RegionGroup(a).value {
      ShortNames(a, Lower(b));
    }
    if "global" in RegionGroup(a).value {
      ShortNames(a, "global");
    }
  }

  lemma FirstLetter(b: string)
    ensures |b| == |Lower(b)| && (b != "" ==> Lower(b)[0] == LowerChar(b[0]))
  {
  }

  lemma GlobalGroup()
    ensures RegionGroup("GLOBAL") == Some({"global"}) && Lower("GLOBAL") == "global" && Upper("global") == "GLOBAL"
  {
    assert "GLOBAL" != "EU" && "GLOBAL" != "US" && "GLOBAL" != "APAC" && "GLOBAL" != "IN";
  }

  /** A region that satisfies requirement `b` but not `a`. */
  lemma Newcomer(a: string, b: string) returns (x: string)
    requires a != "" && b != "" && !ResidencyKept(Some(a), Some(b))
    ensures Lower(x) == x && x in Covered(Region, b) && x !in Covered(Region, a)
  {
    hide RegionGroup, Lower, Upper;
    SameName(a, b);
    SameName(b, "GLOBAL");
    GlobalGroup();
    UpperTwice(b);
    CaseFolding(b);
    CaseFolding("GLOBAL");
    if RegionGroup(Upper(b)).Some? {
      GroupsApart(Upper(b), Upper(b));
    }
    if RegionGroup(Upper(a)).Some? {
      GroupsApart(Upper(a), Upper(a));
      if RegionGroup(Upper(b)).Some? {
        GroupsApart(Upper(a), Upper(b));
      }
    }
    x := if Lower(b) in Covered(Region, a) then "global" else Lower(b);
  }

  lemma UpperTwice(b: string)
    ensures Lower(Upper(b)) == Lower(b) && Upper(Upper(b)) == Upper(b) && Upper("GLOBAL") == "GLOBAL"
  {
    CaseFolding(b);
  }

  /** A region that a requirement does not let in. */
  lemma Stranger(a: string) returns (x: string)
    requires a != ""
    ensures Lower(x) == x && x !in Covered(Region, a)
  {
    hide RegionGroup;
    x := seq(|a| + 1, _ => 'a');
    if RegionGroup(Upper(a)).Some? && x in RegionGroup(Upper(a)).value {
      GroupNames(Upper(a), x);
      assert false;
    }
    assert "global"[0] == 'g' && x[0] == 'a';
  }

  lemma KeptCovered(a: string, b: string)
    requires a != "" && b != "" && ResidencyKept(Some(a), Some(b))
    ensures Covered(Region, b) <= Covered(Region, a)
  {
    hide RegionGroup, Lower, Upper;
    SameName(a, b);
    GlobalGroup();
  }

  /** Replacing one required residency by another keeps every refusal exactly in these cases. In
      particular it does not when a group is narrowed to one of its regions, because a single
      region, unlike a group, lets in global routes. */
  lemma ResidencyIsKept(a: Option<string>, b: Option<string>)
    ensures (forall x :: !Resident(a, x) ==> !Resident(b, x)) <==> ResidencyKept(a, b)
  {
    hide Covered, RegionMatches, Lower, Upper, RegionGroup;
    if Unrequired(a) {
    } else if Unrequired(b) {
      var x := Stranger(a.value);
      ResidencyCovered(a.value, x);
    } else {
      forall x
        ensures Resident(a, x) <==> Lower(x) in Covered(Region, a.value)
        ensures Resident(b, x) <==> Lower(x) in Covered(Region, b.value)
      {
        ResidencyCovered(a.value, x);
        ResidencyCovered(b.value, x);
      }
      if ResidencyKept(a, b) {
        KeptCovered(a.value, b.value);
      } else {
        var x := Newcomer(a.value, b.value);
        assert Resident(b, x) && !Resident(a, x);
      }
    }
  }

  // ---------------------------------------------------------------- regions

  /** What rules and required residency say of a region. */
  ghost predicate RegionPasses(rules: seq<Rule>, x: string) {
    !Refused(rules, Region, x) && Resident(ResidencyOf(rules), x)
  }

  function Entries(r: Rule): seq<string> {
    r.value.texts + [r.value.text]
  }

  /** The regions that rules name, by themselves or as members of a group, and one they do not. */
  ghost function Sample(rules: seq<Rule>): set<string> {
    (set r, e, x | r in rules && e in Entries(r) && x in Covered(Region, e) :: x) + {Unnamed(rules)}
  }

  /** No entry of the rules tells the two regions apart. */
  ghost predicate Alike(rules: seq<Rule>, x: string, y: string) {
    forall r, e :: r in rules && e in Entries(r) ==> (Matches(Region, e, x) <==> Matches(Region, e, y))
  }

  lemma Representative(rules: seq<Rule>, x: string) returns (y: string)
    requires x != ""
    ensures y in Sample(rules) && y != "" && Alike(rules, x, y)
  {
    hide Unnamed, Covered, Lower, RegionMatches;
    CaseFolding(x);
    y := if exists r, e :: r in rules && e in Entries(r) && Lower(x) in Covered(Region, e) then Lower(x)
         else Unnamed(rules);
    forall r, e | r in rules && e in Entries(r) ensures Matches(Region, e, x) <==> Matches(Region, e, y) {
      RegionCovered(e, x);
      RegionCovered(e, y);
      if y != Lower(x) {
        assert e in r.value.texts || e == r.value.text;
        UnnamedRegion(rules, e);
      }
    }
  }

  lemma AlikeListed(rules: seq<Rule>, x: string, y: string, r: Rule)
    requires Alike(rules, x, y) && r in rules
    ensures Listed(Region, r.value.texts, x) <==> Listed(Region, r.value.texts, y)
  {
    hide RegionMatches;
    forall i | 0 <= i < |r.value.texts|
      ensures Matches(Region, r.value.texts[i], x) <==> Matches(Region, r.value.texts[i], y)
    {
      assert r.value.texts[i] in Entries(r);
    }
  }

  lemma AlikeCommon(rules: seq<Rule>, x: string, y: string, e: string)
    requires Alike(rules, x, y) && HasAllow(rules, Region) && Common(rules, Region, e)
    ensures Matches(Region, e, x) <==> Matches(Region, e, y)
  {
    hide Allows, Matches, Norm;
    var r :| r in rules && Allows(r, Region);
    var n :| n in r.value.texts && e == Norm(Region, n);
    assert n in Entries(r);
    MatchesNorm(Region, n, x);
    MatchesNorm(Region, n, y);
  }

  lemma {:induction false} ResidencyFrom(rules: seq<Rule>)
    ensures ResidencyOf(rules).Some? ==> exists r :: r in rules && ResidencyOf(rules) == Some(r.value.text)
  {
    if rules != [] {
      ResidencyFrom(rules[..|rules| - 1]);
      assert rules == rules[..|rules| - 1] + [rules[|rules| - 1]];
    }
  }

  lemma AlikePasses(rules: seq<Rule>, x: string, y: string)
    requires Alike(rules, x, y)
    ensures RegionPasses(rules, x) <==> RegionPasses(rules, y)
  {
    hide Allows, Denies, Listed, Matches, Alike, ResidencyOf, NormSet;
    forall r | r in rules ensures Listed(Region, r.value.texts, x) <==> Listed(Region, r.value.texts, y) {
      AlikeListed(rules, x, y, r);
    }
    forall e | HasAllow(rules, Region) && Common(rules, Region, e)
      ensures Matches(Region, e, x) <==> Matches(Region, e, y)
    {
      AlikeCommon(rules, x, y, e);
    }
    AlikeResident(rules, x, y);
  }

  lemma AlikeResident(rules: seq<Rule>, x: string, y: string)
    requires Alike(rules, x, y)
    ensures Resident(ResidencyOf(rules), x) <==> Resident(ResidencyOf(rules), y)
  {
    hide RegionMatches;
    ResidencyFrom(rules);
    if ResidencyOf(rules).Some? {
      var r :| r in rules && ResidencyOf(rules) == Some(r.value.text);
      assert r.value.text in Entries(r);
      assert Matches(Region, r.value.text, x) <==> Matches(Region, r.value.text, y);
    }
  }

  ghost predicate NoRegionPasses(rules: seq<Rule>) {
    forall x :: x in Sample(rules) && x != "" ==> !RegionPasses(rules, x)
  }

  /** Of the regions that the rules name, and one they do not, none is let in. */
  ghost predicate RegionsKept(rules: seq<Rule>, more: seq<Rule>) {
    forall x :: x in Sample(more) && x != "" && RegionPasses(more, x) ==> RegionPasses(rules, x)
  }

  /** What holds of the sample holds of all regions. */
  lemma RegionsSampled(rules: seq<Rule>, more: seq<Rule>, x: string)
    requires Within(rules, more) && x != ""
    ensures NoRegionPasses(more) ==> !RegionPasses(more, x)
    ensures RegionsKept(rules, more) && RegionPasses(more, x) ==> RegionPasses(rules, x)
  {
    hide RegionPasses, Sample, Matches;
    var y := Representative(more, x);
    AlikePasses(more, x, y);
    assert Alike(rules, x, y);
    AlikePasses(rules, x, y);
  }

  /** The parts that keep regions: the list of regions, and the residency. */
  lemma RegionPartsKept(rules: seq<Rule>, more: seq<Rule>)
    requires Within(rules, more)
    requires ListKept(rules, more, Region) && ResidencyKept(ResidencyOf(rules), ResidencyOf(more))
    ensures RegionsKept(rules, more)
  {
    hide Refused, Resident, ListKept, ResidencyKept, Sample, ResidencyOf;
    RefusalsAreKept(rules, more, Region);
    ResidencyIsKept(ResidencyOf(rules), ResidencyOf(more));
  }

  // ---------------------------------------------------------------- routes

  function AllTexts(rules: seq<Rule>): (t: seq<string>)
    ensures forall r, e :: r in rules && e in r.value.texts ==> e in t
  {
    if rules == [] then []
    else
      assert rules == [rules[0]] + rules[1..];
      rules[0].value.texts + AllTexts(rules[1..])
  }

  function LowestCeiling(rules: seq<Rule>): (n: real)
    ensures forall r :: r in rules && r.value.number.Some? ==> n <= r.value.number.value
  {
    if rules == [] then 0.0
    else
      assert rules == [rules[0]] + rules[1..];
      var n := LowestCeiling(rules[1..]);
      if rules[0].value.number.Some? then Min(n, rules[0].value.number.value) else n
  }

  /** A route of a provider, in a region, that is cheap enough and carries every tag. */
  function Fitting(rules: seq<Rule>, provider: string, region: string): Candidate {
    Candidate("route", provider, Some(region), Some(AllTexts(rules)), None, Some(LowestCeiling(rules)))
  }

  lemma FittingDecides(rules: seq<Rule>, more: seq<Rule>, provider: string, region: string)
    requires Within(rules, more) && Lower(provider) == provider && region != ""
    ensures RoutePermitted(Fitting(more, provider, region), rules)
       <==> !Refused(rules, Provider, provider) && RegionPasses(rules, region)
  {
    hide Refused, Resident, ResidencyOf, Carries, AllTexts, LowestCeiling, Lower, RequiresTag;
    var k := Fitting(more, provider, region);
    forall t | t in AllTexts(more) ensures Carries(k, t) {
      CarriesOwn(k, t);
    }
    assert !TagMissing(rules, k);
    assert RegionOf(k) == Lower(region);
    FoldedPasses(rules, region);
  }

  lemma CarriesOwn(k: Candidate, t: string)
    requires t in k.tags.GetOr([])
    ensures Carries(k, t)
  {
    assert t in k.tags.GetOr([]) + k.complianceTags.GetOr([]);
  }

  lemma FoldedPasses(rules: seq<Rule>, x: string)
    ensures RegionPasses(rules, Lower(x)) <==> RegionPasses(rules, x)
  {
    hide RegionGroup, ResidencyOf, Forbidden, Outside;
    RegionFolds(rules, x);
    CaseFolding(x);
  }

  /** The list of providers and the regions are kept, or no provider or no region passes any more. */
  ghost predicate RoutesKept(rules: seq<Rule>, more: seq<Rule>) {
    || NonePasses(more, Provider)
    || NoRegionPasses(more)
    || (ListKept(rules, more, Provider) && RegionsKept(rules, more))
  }

  /** More rules turn no exclusion of a route into an approval exactly when routes are kept. */
  lemma RulesOnlyNarrowRoutes(rules: seq<Rule>, more: seq<Rule>)
    requires Within(rules, more)
    ensures (forall k :: RoutePermitted(k, more) ==> RoutePermitted(k, rules)) <==> RoutesKept(rules, more)
  {
    hide RoutePermitted, RoutesKept, Within;
    if RoutesKept(rules, more) {
      forall k | RoutePermitted(k, more) ensures RoutePermitted(k, rules) {
        KeptRoute(rules, more, k);
      }
    } else {
      var k := LostRoute(rules, more);
    }
  }

  lemma KeptRoute(rules: seq<Rule>, more: seq<Rule>, k: Candidate)
    requires Within(rules, more) && RoutePermitted(k, more) && RoutesKept(rules, more)
    ensures RoutePermitted(k, rules)
  {
    hide Refused, Forbidden, Over, Capped, Lower, Resident, ListKept, NonePasses, NoRegionPasses, RegionsKept,
      ResidencyOf;
    assert RegionOf(k) != "";
    RegionsSampled(rules, more, RegionOf(k));
    if NonePasses(more, Provider) {
      NonePassesRefused(more, Provider, Lower(k.providerId));
    } else if !NoRegionPasses(more) {
      RefusalsAreKept(rules, more, Provider);
      MoreRules(rules, more);
    }
  }

  lemma LostRoute(rules: seq<Rule>, more: seq<Rule>) returns (k: Candidate)
    requires Within(rules, more) && !RoutesKept(rules, more)
    ensures RoutePermitted(k, more) && !RoutePermitted(k, rules)
  {
    hide Refused, NonePasses, ListKept, RoutePermitted, RegionPasses, Sample, Fitting, Outsider;
    var p, x;
    if !ListKept(rules, more, Provider) {
      LostRefusal(rules, more, Provider);
      p := Outsider(more, Provider);
      LowerOutsider(more, Provider);
      x :| x in Sample(more) && x != "" && RegionPasses(more, x);
    } else {
      p := SomePasses(more, Provider);
      x :| x in Sample(more) && x != "" && RegionPasses(more, x) && !RegionPasses(rules, x);
    }
    k := Fitting(more, p, x);
    FittingDecides(more, more, p, x);
    FittingDecides(rules, more, p, x);
  }

  // ---------------------------------------------------------------- adding a policy

  lemma {:induction false} RulesOfItems(items: seq<HierarchyItem>, r: Rule)
    ensures r in RulesOf(items) <==> exists i :: i in items && r in i.rules
  {
    if items != [] {
      RulesOfItems(items[..|items| - 1], r);
      assert items == items[..|items| - 1] + [items[|items| - 1]];
    }
  }

  lemma SortedItems(items: seq<HierarchyItem>, i: HierarchyItem)
    ensures i in Sort(Before, items) <==> i in items
  {
    assert i in Sort(Before, items) <==> i in multiset(Sort(Before, items));
    assert i in items <==> i in multiset(items);
  }

  ghost predicate WithinHierarchy(h: seq<HierarchyItem>, more: seq<HierarchyItem>) {
    forall i :: i in h ==> i in more
  }

  lemma MorePoliciesMoreRules(h: seq<HierarchyItem>, more: seq<HierarchyItem>, q: Option<RequestConstraints>)
    requires WithinHierarchy(h, more)
    ensures Within(RulesInForce(h, q), RulesInForce(more, q))
  {
    hide RequestRules, Sort, RulesOf;
    forall r | r in RulesOf(Sort(Before, h)) ensures r in RulesOf(Sort(Before, more)) {
      RulesOfItems(Sort(Before, h), r);
      var i :| i in Sort(Before, h) && r in i.rules;
      SortedItems(h, i);
      SortedItems(more, i);
      RulesOfItems(Sort(Before, more), r);
    }
  }

  /** Adding policies, at whatever scopes, turns no denial of a request into an approval exactly when
      the lists requests are checked against are kept, or no model passes any more. */
  lemma AddingPoliciesOnlyNarrows(h: seq<HierarchyItem>, more: seq<HierarchyItem>, q: Option<RequestConstraints>)
    requires WithinHierarchy(h, more)
    ensures (forall ctx :: EvaluateRequest(ctx, Compile(h, q).constraints).Some?
                       ==> EvaluateRequest(ctx, Compile(more, q).constraints).Some?)
       <==> NonePasses(RulesInForce(more, q), Model) || RequestListsKept(RulesInForce(h, q), RulesInForce(more, q))
  {
    hide EvaluateRequest, Compile, RulesInForce, RequestPermitted, Within, NonePasses, RequestListsKept;
    CompileIsFold(h, q);
    CompileIsFold(more, q);
    MorePoliciesMoreRules(h, more, q);
    RulesOnlyNarrow(RulesInForce(h, q), RulesInForce(more, q));
    forall ctx
      ensures EvaluateRequest(ctx, Compile(h, q).constraints).None? <==> RequestPermitted(ctx, RulesInForce(h, q))
      ensures EvaluateRequest(ctx, Compile(more, q).constraints).None? <==> RequestPermitted(ctx, RulesInForce(more, q))
    {
      RequestDecision(ctx, RulesInForce(h, q));
      RequestDecision(ctx, RulesInForce(more, q));
    }
  }

  /** The same for routes: the list of providers and the regions. */
  lemma AddingPoliciesOnlyNarrowsRoutes(h: seq<HierarchyItem>, more: seq<HierarchyItem>, q: Option<RequestConstraints>)
    requires WithinHierarchy(h, more)
    ensures (forall k :: EvaluateRoute(k, Compile(h, q).constraints).Some?
                     ==> EvaluateRoute(k, Compile(more, q).constraints).Some?)
       <==> RoutesKept(RulesInForce(h, q), RulesInForce(more, q))
  {
    hide EvaluateRoute, Compile, RulesInForce, RoutePermitted, Within, RoutesKept;
    CompileIsFold(h, q);
    CompileIsFold(more, q);
    MorePoliciesMoreRules(h, more, q);
    RulesOnlyNarrowRoutes(RulesInForce(h, q), RulesInForce(more, q));
    forall k
      ensures EvaluateRoute(k, Compile(h, q).constraints).None? <==> RoutePermitted(k, RulesInForce(h, q))
      ensures EvaluateRoute(k, Compile(more, q).constraints).None? <==> RoutePermitted(k, RulesInForce(more, q))
    {
      RouteDecision(k, RulesInForce(h, q));
      RouteDecision(k, RulesInForce(more, q));
    }
  }

  function PolicyAt(scope: Scope, rule: Rule): HierarchyItem {
    HierarchyItem(scope, Some("s"), "p", 1, [rule])
  }

  lemma OnePolicy(a: Rule)
    ensures Compile([PolicyAt(Organization, a)], None).constraints == Compiled([a])
  {
    var i := PolicyAt(Organization, a);
    assert Sort(Before, [i]) == [i];
    assert [i][..0] == [];
    assert RulesOf([i]) == [a];
  }

  lemma TwoPolicies(a: Rule, b: Rule)
    ensures Compile([PolicyAt(Organization, a), PolicyAt(Workspace, b)], None).constraints == Compiled([a, b])
  {
    var i, j := PolicyAt(Organization, a), PolicyAt(Workspace, b);
    assert [i, j][1..] == [j] && [j][1..] == [];
    assert Sort(Before, [j]) == [j];
    assert Sort(Before, [i, j]) == [i] + [j] == [i, j];
    assert [i, j][..1] == [i] && [i][..0] == [];
    assert RulesOf([i]) == [a];
    assert RulesOf([i, j]) == [a] + [b] == [a, b];
  }

  lemma NoNamesLeft(d: Dimension, names: seq<string>)
    ensures NormSet(d, names) == {} <==> names == []
  {
    assert names != [] ==> Norm(d, names[0]) in NormSet(d, names);
  }

  lemma DisjointCompiled()
    ensures var a, b := NameRule(Provider, Allow, ["a"]), NameRule(Provider, Allow, ["b"]);
            && Compiled([a]) == Unconstrained().(allowed := map[Provider := ["a"]])
            && Compiled([a, b]) == Unconstrained().(allowed := map[Provider := []])
  {
    var a, b := NameRule(Provider, Allow, ["a"]), NameRule(Provider, Allow, ["b"]);
    ApplyOne(Unconstrained(), a);
    assert [a, b][..1] == [a];
    assert Norm(Provider, "a") == ['a'] && Norm(Provider, "b") == ['b'];
    assert NormSet(Provider, ["a"]) == {['a']} && NormSet(Provider, ["b"]) == {['b']};
    NoNamesLeft(Provider, IntersectSets(Provider, Some(["a"]), ["b"]));
  }

  /** A workspace that approves a provider the organization does not approve of opens the gateway
      to every provider. */
  lemma DisjointAllowlistsOpen(k: Candidate)
    requires k == Candidate("r", "c", None, None, None, None)
    ensures var a, b := NameRule(Provider, Allow, ["a"]), NameRule(Provider, Allow, ["b"]);
            && EvaluateRoute(k, Compile([PolicyAt(Organization, a)], None).constraints) == Some(ProviderDenied)
            && EvaluateRoute(k, Compile([PolicyAt(Organization, a), PolicyAt(Workspace, b)], None).constraints) == None
  {
    hide Compile, Compiled, RegionMatches, Carries;
    var a, b := NameRule(Provider, Allow, ["a"]), NameRule(Provider, Allow, ["b"]);
    OnePolicy(a);
    TwoPolicies(a, b);
    DisjointCompiled();
    assert Lower(k.providerId) == ['c'] && Lower("a") == ['a'];
  }

  function ResidencyRule(region: string): Rule {
    Rule(DataResidency, Allow, Equals, Value([region], region, true, None))
  }

  lemma ResidencyCompiled(a: string, b: string)
    ensures Compiled([ResidencyRule(a)]) == Unconstrained().(requiredDataResidency := Some(a))
    ensures Compiled([ResidencyRule(a), ResidencyRule(b)]) == Unconstrained().(requiredDataResidency := Some(b))
  {
    ApplyOne(Unconstrained(), ResidencyRule(a));
    assert [ResidencyRule(a), ResidencyRule(b)][..1] == [ResidencyRule(a)];
  }

  /** A workspace that asks for another residency replaces the organization's: one in the US lets in
      a US route that the organization's EU excluded, ... */
  lemma AnotherResidencyReplaces(k: Candidate)
    requires k == Candidate("r", "c", Some("us"), None, None, None)
    ensures var a, b := ResidencyRule("EU"), ResidencyRule("US");
            && EvaluateRoute(k, Compile([PolicyAt(Organization, a)], None).constraints) == Some(DataResidencyDenied)
            && EvaluateRoute(k, Compile([PolicyAt(Organization, a), PolicyAt(Workspace, b)], None).constraints) == None
  {
    hide Compile, Compiled, RegionGroup, Lower, Upper;
    OnePolicy(ResidencyRule("EU"));
    TwoPolicies(ResidencyRule("EU"), ResidencyRule("US"));
    ResidencyCompiled("EU", "US");
    AlreadyLower("us");
    UsResident();
  }

  lemma UsResident()
    ensures RegionMatches("us", "US") && !RegionMatches("us", "EU")
  {
    AlreadyLower("us");
    assert Upper("EU") == "EU" && Upper("US") == "US";
  }

  /** ... and one in a single region of the EU lets in a global route that EU excluded. */
  lemma NarrowerResidencyAdmitsGlobal(k: Candidate)
    requires k == Candidate("r", "c", None, None, None, None)
    ensures var a, b := ResidencyRule("EU"), ResidencyRule("eu-west-1");
            && EvaluateRoute(k, Compile([PolicyAt(Organization, a)], None).constraints) == Some(DataResidencyDenied)
            && EvaluateRoute(k, Compile([PolicyAt(Organization, a), PolicyAt(Workspace, b)], None).constraints) == None
  {
    hide Compile, Compiled, RegionGroup, Lower, Upper;
    OnePolicy(ResidencyRule("EU"));
    TwoPolicies(ResidencyRule("EU"), ResidencyRule("eu-west-1"));
    ResidencyCompiled("EU", "eu-west-1");
    GlobalResident();
  }

  lemma GlobalResident()
    ensures RegionMatches("global", "eu-west-1") && !RegionMatches("global", "EU")
  {
    AlreadyLower("global");
    assert Upper("EU") == "EU" && Upper("eu-west-1") == "EU-WEST-1";
    assert |"EU-WEST-1"| == 9;
  }
}
