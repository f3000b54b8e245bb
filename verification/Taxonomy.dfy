/**
 The civic taxonomy and the routing policy.  The category table is abstract: any table with the facts
 the source validates when it is loaded.
 */
module Taxonomy {
  import opened Wrappers

  datatype Safety = NoRisk | Possible | Immediate
  datatype AssetScope = Public | Private | UnknownScope
  datatype Disposition = MunicipalTicket | TicketAndEscalate | Redirect | EmergencyRedirect | NeedsHumanReview

  datatype Category = Category(key: string, department: string, priority: string)
  datatype Route = Route(department: string, dispatchEnabled: bool)
  datatype Decision = Decision(disposition: Disposition, priority: string, dedupEligible: bool, needsReview: bool)

  datatype Table = Table(canonical: map<string, Category>, aliases: map<string, string>,
                         departments: set<string>, routes: map<string, Route>)

  const UNMAPPED := "unmapped_service"
  const LEGACY_DEFAULTS: map<string, string> := map[
    "sanitation" := "public_nuisance_sanitation",
    "encroachment" := "public_land_encroachment",
    "electricity" := "electrical_box_or_transformer_hazard",
    "other" := "unmapped_service"]
  const IMMEDIATE_SAFETY_CATEGORIES := {
    "road_cave_in", "exposed_or_low_hanging_wire", "electrical_box_or_transformer_hazard",
    "open_or_damaged_manhole", "stray_dog_bite_public_health_referral"}
  const AMBIGUOUS := {"insufficient_information", "multi_issue", "unmapped_service", "possible_non_municipal"}

  /** What loading the module checks, or fails without. */
  predicate Valid(t: Table) {
    && (forall k :: k in t.canonical ==> t.canonical[k].key == k && t.canonical[k].department in t.departments)
    && (forall a :: a in t.aliases ==> a !in t.canonical && t.aliases[a] in t.canonical)
    && (forall d :: d in LEGACY_DEFAULTS ==> LEGACY_DEFAULTS[d] in t.canonical)
    && UNMAPPED in t.canonical
    && (forall k :: k in t.routes ==> k in t.canonical && !t.routes[k].dispatchEnabled)
  }

  function CanonicalKey(t: Table, key: Option<string>): Option<string> {
    if key.None? || key.value == "" then None
    else if key.value in t.canonical then key
    else if key.value in t.aliases then Some(t.aliases[key.value])
    else if key.value in LEGACY_DEFAULTS then Some(LEGACY_DEFAULTS[key.value])
    else None
  }

  function CategoryOrDefault(t: Table, key: Option<string>): Category
    requires Valid(t)
  {
    var canonical := CanonicalKey(t, key);
    if canonical.Some? && canonical.value in t.canonical then t.canonical[canonical.value]
    else t.canonical[UNMAPPED]
  }

  function RouteFor(t: Table, key: Option<string>): Option<Route> {
    var canonical := CanonicalKey(t, key);
    if canonical.Some? && canonical.value in t.routes then Some(t.routes[canonical.value]) else None
  }

  predicate External(t: Table, key: string) {
    key in t.canonical && t.canonical[key].department == "external_referral"
  }

  function Policy(t: Table, key: Option<string>, safety: Safety, scope: AssetScope, located: bool): Decision
    requires Valid(t)
  {
    var canonical := CanonicalKey(t, key);
    if safety == Immediate || (canonical.Some? && canonical.value in IMMEDIATE_SAFETY_CATEGORIES) then
      Decision(EmergencyRedirect, "priority", false, true)
    else if !located then Decision(Redirect, "normal", false, true)
    else if canonical.None? || canonical.value in AMBIGUOUS then Decision(NeedsHumanReview, "normal", false, true)
    else if scope == Private then Decision(Redirect, "normal", false, true)
    else if External(t, canonical.value) then
      Decision(Redirect, if safety == Possible then "priority" else "normal", false, true)
    else if RouteFor(t, canonical).None? then
      Decision(NeedsHumanReview, CategoryOrDefault(t, canonical).priority, false, true)
    else if safety == Possible then Decision(TicketAndEscalate, "priority", false, false)
    else
      var priority := CategoryOrDefault(t, canonical).priority;
      Decision(MunicipalTicket, priority, priority != "priority", false)
  }

  /** Every key - canonical, legacy or unknown - lands on a category of the table with a department. */
  lemma EveryKeyHasADepartment(t: Table, key: Option<string>)
    requires Valid(t)
    ensures var c := CategoryOrDefault(t, key);
            && c.key in t.canonical && t.canonical[c.key] == c && c.department in t.departments
            && (CanonicalKey(t, key).Some? ==> Some(c.key) == CanonicalKey(t, key))
    ensures CanonicalKey(t, key).Some? ==>
              CanonicalKey(t, key).value in t.canonical
              && (CanonicalKey(t, key).value != "" ==> CanonicalKey(t, CanonicalKey(t, key)) == CanonicalKey(t, key))
  {
  }

  function Level(s: Safety): nat {
    match s case NoRisk => 0 case Possible => 1 case Immediate => 2
  }

  predicate Expedited(d: Decision) { d.priority == "priority" }

  /** Learning that a report is more dangerous never slows it down and never drops an official's review. */
  lemma MoreDangerNeverLowers(t: Table, key: Option<string>, s1: Safety, s2: Safety, scope: AssetScope, located: bool)
    requires Valid(t) && Level(s1) <= Level(s2)
    ensures var d1, d2 := Policy(t, key, s1, scope, located), Policy(t, key, s2, scope, located);
            && (Expedited(d1) ==> Expedited(d2))
            && (d1.needsReview ==> d2.needsReview)
            && (d2.dedupEligible ==> d1.dedupEligible)
  {
  }

  /** The three ways a filed complaint can go exclude each other and leave nothing out. */
  lemma DecisionsArePartitioned(t: Table, key: Option<string>, s: Safety, scope: AssetScope, located: bool)
    requires Valid(t)
    ensures var d := Policy(t, key, s, scope, located);
            && !(d.needsReview && d.dedupEligible)
            && (d.dedupEligible <==> !d.needsReview && !Expedited(d))
            && (d.needsReview <==> d.disposition in {Redirect, EmergencyRedirect, NeedsHumanReview})
  {
  }

  // ----- the policy, decision by decision -----

  /** The complaint's category is one of the table's, and one that says what is wrong. */
  ghost predicate Classified(t: Table, key: Option<string>) {
    CanonicalKey(t, key).Some? && CanonicalKey(t, key).value !in {"insufficient_information", "multi_issue",
                                                                 "unmapped_service", "possible_non_municipal"}
  }

  /** Danger to life: as the report says, or by its category. */
  ghost predicate Emergency(t: Table, key: Option<string>, s: Safety) {
    || s == Immediate
    || CanonicalKey(t, key) in {Some("road_cave_in"), Some("exposed_or_low_hanging_wire"),
                                Some("electrical_box_or_transformer_hazard"), Some("open_or_damaged_manhole"),
                                Some("stray_dog_bite_public_health_referral")}
  }

  /** Somebody else's: a private asset, or a category of an agency outside the municipality. */
  ghost predicate Elsewhere(t: Table, key: Option<string>, scope: AssetScope) {
    || scope == Private
    || (CanonicalKey(t, key).Some? && CanonicalKey(t, key).value in t.canonical
        && t.canonical[CanonicalKey(t, key).value].department == "external_referral")
  }

  ghost predicate Routed(t: Table, key: Option<string>) {
    CanonicalKey(t, key).Some? && CanonicalKey(t, key).value in t.routes && CanonicalKey(t, key).value != ""
  }

  /** The category itself has priority; one without a name stands for unmapped service. */
  ghost predicate UrgentCategory(t: Table, key: Option<string>)
    requires Valid(t)
  {
    && CanonicalKey(t, key).Some? && CanonicalKey(t, key).value in t.canonical
    && t.canonical[if CanonicalKey(t, key).value == "" then "unmapped_service" else CanonicalKey(t, key).value].priority
       == "priority"
  }

  /** Where each complaint goes. */
  lemma DispositionExactly(t: Table, key: Option<string>, s: Safety, scope: AssetScope, located: bool)
    requires Valid(t)
    ensures var d := Policy(t, key, s, scope, located).disposition;
      && (d == EmergencyRedirect <==> Emergency(t, key, s))
      && (d == Redirect <==> !Emergency(t, key, s) && (!located || (Classified(t, key) && Elsewhere(t, key, scope))))
      && (d == NeedsHumanReview <==>
            && !Emergency(t, key, s) && located
            && (!Classified(t, key) || (!Elsewhere(t, key, scope) && !Routed(t, key))))
      && (d == TicketAndEscalate || d == MunicipalTicket <==>
            !Emergency(t, key, s) && located && Classified(t, key) && !Elsewhere(t, key, scope) && Routed(t, key))
      && (d == TicketAndEscalate ==> s == Possible) && (d == MunicipalTicket ==> s == NoRisk)
  {
  }

  /** And which go first, and which wait for an official. */
  lemma PriorityExactly(t: Table, key: Option<string>, s: Safety, scope: AssetScope, located: bool)
    requires Valid(t)
    ensures var d := Policy(t, key, s, scope, located);
      && (d.priority == "priority" <==>
            || Emergency(t, key, s)
            || (d.disposition == Redirect && located && scope != Private && s == Possible)
            || (d.disposition == NeedsHumanReview && Classified(t, key) && UrgentCategory(t, key))
            || d.disposition == TicketAndEscalate
            || (d.disposition == MunicipalTicket && UrgentCategory(t, key)))
      && (d.needsReview <==> d.disposition != TicketAndEscalate && d.disposition != MunicipalTicket)
      && (d.dedupEligible <==> d.disposition == MunicipalTicket && !UrgentCategory(t, key))
  {
  }

  /** Old names still count: a key is its own, its alias's, or its legacy category. */
  lemma KeyExactly(t: Table, key: string)
    requires Valid(t) && key != ""
    ensures key in t.canonical ==> CanonicalKey(t, Some(key)) == Some(key)
    ensures key in t.aliases ==> CanonicalKey(t, Some(key)) == Some(t.aliases[key])
    ensures key !in t.canonical && key !in t.aliases ==>
      CanonicalKey(t, Some(key)) ==
        if key == "sanitation" then Some("public_nuisance_sanitation")
        else if key == "encroachment" then Some("public_land_encroachment")
        else if key == "electricity" then Some("electrical_box_or_transformer_hazard")
        else if key == "other" then Some("unmapped_service")
        else None
  {
  }
}
