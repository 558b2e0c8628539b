/** CharacterCounter (src/components/generate/CharacterCounter.tsx): the count, the bound it is
    measured against and the style it is shown in. */
module CharacterCounter {
  import opened Strings

  /** The counter as rendered: the count, "min N" or "max M", and whether it is drawn in the
      destructive style. */
  datatype Counter = Counter(count: nat, bound: string, destructive: bool)

  predicate IsValid(current: int, min: int, max: int) {
    min <= current <= max
  }

  function Render(current: nat, min: nat, max: nat): (c: Counter)
    ensures c.count == current
    ensures c.destructive <==> !IsValid(current, min, max)
    ensures c.bound == (if current < min then "min " + NatToString(min) else "max " + NatToString(max))
  {
    var isUnderMin := current < min;
    Counter(current, if isUnderMin then "min " + NatToString(min) else "max " + NatToString(max), !IsValid(current, min, max))
  }

  /** Under the minimum the counter is always destructive and names the minimum. */
  lemma UnderMinIsInvalid(current: nat, min: nat, max: nat)
    requires current < min
    ensures Render(current, min, max).destructive
    ensures Render(current, min, max).bound[..4] == "min "
  {
  }

  /** A count inside the bounds shows the maximum in the muted style. */
  lemma ValidShowsMax(current: nat, min: nat, max: nat)
    requires IsValid(current, min, max)
    ensures Render(current, min, max) == Counter(current, "max " + NatToString(max), false)
  {
  }
}
