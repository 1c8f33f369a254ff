/** The country record shared by the explorer and the quiz: only the fields
    the core reads (`cca3`, `name.common`, `flags.png`). */
module CountryData {

  datatype Option<T> = None | Some(value: T)

  datatype Country = Country(cca3: string, commonName: string, flagPng: string)

  /** The three-letter codes carried by a list of countries. */
  function Codes(countries: seq<Country>): set<string>
  {
    set c | c in countries :: c.cca3
  }

  lemma CodesCons(countries: seq<Country>)
    requires countries != []
    ensures Codes(countries) == {countries[0].cca3} + Codes(countries[1..])
  {
    assert forall c :: c in countries <==> c == countries[0] || c in countries[1..];
  }

  /** There are never more distinct codes than countries. */
  lemma {:induction false} CodesBound(countries: seq<Country>)
    ensures |Codes(countries)| <= |countries|
  {
    if countries != [] {
      CodesBound(countries[1..]);
      CodesCons(countries);
      var rest := Codes(countries[1..]);
      if countries[0].cca3 in rest {
        assert Codes(countries) == rest;
      } else {
        assert |Codes(countries)| == |rest| + 1;
      }
    }
  }
}
