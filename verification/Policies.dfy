/** The two orthogonal gates: which steps are permitted, and which permitted steps stop for review. */
module Policies {
  import opened Basics

  datatype Tier = AutoSafe | ReviewRecommended | HardGated

  /**
   The per-type tables: tiers, what each type's gate says, what each tier's gate says, grants, and the types
   that can be pre-approved. Every run-level theorem holds for all tables, not only the shipped ones.
   */
  datatype Catalogue = Catalogue(
    tiers: map<string, Tier>,
    reasons: map<string, string>,
    tierReasons: map<Tier, string>,
    grants: map<string, string>,
    preapprovable: set<string>)

  const AUTO_COMPLETE := "auto_complete"

  /** A type outside the table is reviewed. */
  function ClassifyStep(cat: Catalogue, kind: string): Tier {
    if kind in cat.tiers then cat.tiers[kind] else ReviewRecommended
  }

  /** What the gate says about a type: its own text, or else its tier's; a type outside the table says so. */
  function ReasonFor(cat: Catalogue, kind: string): string {
    if kind !in cat.tiers then "Unrecognized step type '" + kind + "'"
    else if kind in cat.reasons && cat.reasons[kind] != "" then cat.reasons[kind]
    else if cat.tiers[kind] in cat.tierReasons then cat.tierReasons[cat.tiers[kind]]
    else ""
  }

  /** `review_checkpoints`, `manual` and every unknown policy string share the last predicate. */
  predicate RequiresStop(policy: string, tier: Tier, requiresApproval: bool, preapproved: bool) {
    if tier.HardGated? && !preapproved then true
    else
      var effective := if tier.HardGated? then ReviewRecommended else tier;
      if policy == AUTO_COMPLETE then false
      else effective.ReviewRecommended? || requiresApproval
  }

  /** The string members of a stored list-like value; any other value contributes nothing. */
  function StringMembers(stored: Json): set<string> {
    if stored.JArr? then set j | j in stored.items && j.JStr? :: j.text else {}
  }

  function NormalizePreapproved(cat: Catalogue, stored: Json): set<string> {
    StringMembers(stored) * cat.preapprovable
  }

  function RequiredGrant(cat: Catalogue, kind: string): Option<string> {
    if kind in cat.grants then Some(cat.grants[kind]) else None
  }

  /** The grant that blocks a step of this kind, if one does. */
  function MissingGrant(cat: Catalogue, kind: string, stored: Json): Option<string> {
    match RequiredGrant(cat, kind)
    case None => None
    case Some(grant) => if grant in StringMembers(stored) then None else Some(grant)
  }
}
