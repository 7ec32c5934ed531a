/** The tier x class rule of the privacy module: which attested worker tier may
    handle which privacy class. Fail-closed: an unknown class admits no tier. */
module Privacy {
  import opened Options

  type Tier = string
  type PrivacyClass = string

  const LOCAL_ONLY: Tier := "local_only"

  /** The part of routing.yaml the rule reads. */
  datatype Routing = Routing(classes: map<PrivacyClass, seq<Tier>>, requireRedaction: set<PrivacyClass>)

  function AllowedTiers(routing: Routing, pc: PrivacyClass): seq<Tier> {
    if pc in routing.classes then routing.classes[pc] else []
  }

  predicate Admits(routing: Routing, tier: Option<Tier>, pc: PrivacyClass) {
    match tier
    case None => false
    case Some(t) => t in AllowedTiers(routing, pc)
  }

  /** The class list a claim is filtered by is the same rule as `Admits`. */
  function AdmissibleClasses(routing: Routing, tier: Option<Tier>): (classes: set<PrivacyClass>)
    ensures forall pc :: pc in classes <==> Admits(routing, tier, pc)
  {
    match tier
    case None => {}
    case Some(t) => set pc | pc in routing.classes && t in routing.classes[pc]
  }

  /** A child may depend on a parent only when every tier that may see the child
      may also see the parent. */
  predicate NoDowngrade(routing: Routing, child: PrivacyClass, parent: PrivacyClass) {
    forall t :: t in AllowedTiers(routing, child) ==> t in AllowedTiers(routing, parent)
  }

  /** A class that a local worker may handle without redaction. */
  predicate Plain(routing: Routing, pc: PrivacyClass) {
    LOCAL_ONLY in AllowedTiers(routing, pc) && pc !in routing.requireRedaction
  }
}
