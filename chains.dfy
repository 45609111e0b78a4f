/** Build-time selection. An `#if A ... #elif B ... #else ... #endif` chain
    takes the first branch whose condition holds; a chain is modelled as the
    sequence of its (condition, outcome) pairs in source order. */
module Chains {

  datatype Option<T> = None | Some(value: T)

  /** The index of the first alternative whose condition holds, or the
      length of the chain when none does. */
  function FirstTrue<T>(chain: seq<(bool, T)>): (k: nat)
    ensures k <= |chain|
    ensures forall j :: 0 <= j < k ==> !chain[j].0
    ensures k < |chain| ==> chain[k].0
  {
    if chain == [] || chain[0].0 then 0 else 1 + FirstTrue(chain[1..])
  }

  /** The outcome of the first alternative that holds, or `otherwise` (the
      `#else` branch) when none does. */
  function Select<T>(chain: seq<(bool, T)>, otherwise: T): T
  {
    var k := FirstTrue(chain);
    if k < |chain| then chain[k].1 else otherwise
  }

  /** Selection is first-match: an alternative is chosen exactly when its
      condition holds and no earlier one does, and `otherwise` is chosen
      exactly when no condition holds. */
  lemma SelectFirstMatch<T>(chain: seq<(bool, T)>, otherwise: T, k: nat)
    requires k < |chain| && chain[k].0
    requires forall j :: 0 <= j < k ==> !chain[j].0
    ensures Select(chain, otherwise) == chain[k].1
  {
  }

  lemma SelectOtherwise<T>(chain: seq<(bool, T)>, otherwise: T)
    requires forall j :: 0 <= j < |chain| ==> !chain[j].0
    ensures Select(chain, otherwise) == otherwise
  {
  }
}
