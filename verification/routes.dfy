/** The client-side navigation targets the screens point at: the card list
    and the detail page of the card at a given index. */
module Routes {
  import opened Base
  import opened Decimal

  const CardsPath: string := "/cards"
  const CardPrefix: string := "/card/"

  /** `"/card/${index}"`. */
  function CardPath(k: nat): (url: string)
    ensures |url| > |CardPrefix| && url[..|CardPrefix|] == CardPrefix
    ensures url != CardsPath
  {
    CardPrefix + NatToString(k)
  }

  /** The card index a detail URL addresses, absent for any other URL. */
  function CardIndexOf(url: string): Option<nat> {
    if |url| >= |CardPrefix| && url[..|CardPrefix|] == CardPrefix
    then ParseNat(url[|CardPrefix|..])
    else None
  }

  /** A detail URL leads back to exactly the index it was made from. */
  lemma CardIndexOfCardPath(k: nat)
    ensures CardIndexOf(CardPath(k)) == Some(k)
  {
    var url := CardPath(k);
    assert url[|CardPrefix|..] == NatToString(k);
    ParseNatToString(k);
  }

  /** Different cards get different detail URLs. */
  lemma CardPathInjective(a: nat, b: nat)
    requires CardPath(a) == CardPath(b)
    ensures a == b
  {
    CardIndexOfCardPath(a);
    CardIndexOfCardPath(b);
  }
}
