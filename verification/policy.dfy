/** Capability tiers (flowers/policy.py). The keyword and regex floors are fixed but arbitrary predicates. */
module Policy {
  datatype Tier = Auto | Ask | Never
  datatype Verdict = Refuse | Tiered(tier: Tier)

  datatype Rules = Rules(
    refused: (string, string) -> bool,
    natural: (string, string) -> Tier,
    exactOverride: map<(string, string), Tier>,
    toolkitOverride: map<string, Tier>)

  /** Refusal first, then the natural tier, which an override may change unless it is the NEVER floor. */
  function Classify(r: Rules, toolkit: string, action: string): Verdict {
    if r.refused(toolkit, action) then Refuse
    else if r.natural(toolkit, action) == Never then Tiered(Never)
    else if (toolkit, action) in r.exactOverride then Tiered(r.exactOverride[(toolkit, action)])
    else if toolkit in r.toolkitOverride then Tiered(r.toolkitOverride[toolkit])
    else Tiered(r.natural(toolkit, action))
  }

  /** Overrides reach neither the refusals nor the NEVER floor, and neither is ever taken for a read. */
  lemma OverridesStopAtTheFloors(r: Rules, exact: map<(string, string), Tier>, byToolkit: map<string, Tier>,
                                 toolkit: string, action: string)
    ensures var overridden := r.(exactOverride := exact, toolkitOverride := byToolkit);
            && (r.refused(toolkit, action) ==> Classify(overridden, toolkit, action) == Refuse)
            && (!r.refused(toolkit, action) && r.natural(toolkit, action) == Never ==>
                  Classify(overridden, toolkit, action) == Tiered(Never))
            && (r.refused(toolkit, action) || r.natural(toolkit, action) == Never ==>
                  SideEffecting(overridden, toolkit, action))
  {
  }

  /** Anywhere else the override of the very action decides, else that of its toolkit, else its nature; and whether a
      call is read back no override changes. */
  lemma OverridesDecideElsewhere(r: Rules, toolkit: string, action: string)
    requires !r.refused(toolkit, action) && r.natural(toolkit, action) != Never
    ensures forall t ::
      Classify(r.(exactOverride := r.exactOverride[(toolkit, action) := t]), toolkit, action) == Tiered(t)
    ensures (toolkit, action) !in r.exactOverride ==>
      forall t :: Classify(r.(toolkitOverride := r.toolkitOverride[toolkit := t]), toolkit, action) == Tiered(t)
    ensures (toolkit, action) !in r.exactOverride && toolkit !in r.toolkitOverride ==>
      Classify(r, toolkit, action) == Tiered(r.natural(toolkit, action))
    ensures forall e, b :: SideEffecting(r.(exactOverride := e, toolkitOverride := b), toolkit, action)
                           <==> r.natural(toolkit, action) == Ask
  {
  }

  /** Whether a call is read back: the tier without overrides. */
  predicate SideEffecting(r: Rules, toolkit: string, action: string) {
    r.refused(toolkit, action) || r.natural(toolkit, action) != Auto
  }
}
