/**
 A country record as the page reads it from the remote collection, and the
 text its card shows for the capital.
 */
module Countries {
  import opened Wrappers

  /**
   The fields of one record that the page uses: `cca3` (the card key),
   `name.common`, `population`, `region`, `capital` and `flags.png`.
   `region` and `capital` may be absent from a record.
   */
  datatype Country = Country(
    cca3: string,
    name: string,
    population: nat,
    region: Option<string>,
    capital: Option<seq<string>>,
    flag: string
  )

  /** The text `country.capital ? country.capital[0] : 'N/A'` shows. */
  const CapitalPlaceholder: string := "N/A"

  /**
   What the capital cell shows. A present `capital` array is truthy even when
   it is empty, and indexing an empty array gives `undefined`, which renders as
   nothing: that case is `None`.
   */
  function CapitalCell(capital: Option<seq<string>>): (r: Option<string>)
    ensures capital.None? ==> r == Some(CapitalPlaceholder)
    ensures capital.Some? && |capital.value| > 0 ==> r == Some(capital.value[0])
    ensures r.None? <==> capital == Some([])
  {
    match capital
    case None => Some(CapitalPlaceholder)
    case Some(names) => if |names| > 0 then Some(names[0]) else None
  }

  /** The placeholder appears only for an absent array or a capital literally named "N/A". */
  lemma PlaceholderOnlyWhenAbsent(capital: Option<seq<string>>)
    requires CapitalCell(capital) == Some(CapitalPlaceholder)
    ensures capital.None? || capital.value[0] == CapitalPlaceholder
  {
  }
}
