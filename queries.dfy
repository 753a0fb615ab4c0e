/** The verification queries of `IRSNonprofitData`: point lookups by EIN
    with optional attribute matchers. A matcher the caller leaves out (`None`)
    is ignored; an empty string is a matcher like any other. Both queries
    only read the table. */
module Queries {
  import opened Records

  /** One `(attr_name, arg_value)` pair of a query. */
  type Matcher = (Field, Option<string>)

  /** A matcher left out, or equal to the stored value. */
  predicate Matches(arg: Option<string>, stored: string) {
    arg.None? || arg.value == stored
  }

  /** The loop over the pairs: for every supplied argument,
      `verified = verified and arg_value == getattr(row, attr_name)`. */
  function MatchFold(row: Record, matchers: seq<Matcher>, verified: bool): (ok: bool)
    ensures ok <==> verified && forall j :: 0 <= j < |matchers| ==> Matches(matchers[j].1, Get(row, matchers[j].0))
  {
    if matchers == [] then verified
    else
      var (attr, arg) := matchers[0];
      var ok := MatchFold(row, matchers[1..], if arg.Some? then verified && arg.value == Get(row, attr) else verified);
      assert forall j :: 1 <= j < |matchers| ==> matchers[j] == matchers[1..][j - 1];
      ok
  }

  /** `verify_nonprofit`: false when no row has this EIN, whatever else is
      passed; otherwise true exactly when every supplied argument equals the
      stored attribute. */
  function VerifyNonprofit(store: Store, ein: string, name: Option<string>, city: Option<string>,
                           state: Option<string>, country: Option<string>,
                           deductabilityCode: Option<string>): (verified: bool)
    ensures ein !in store ==> !verified
    ensures verified <==>
            ein in store
            && Matches(name, store[ein].name) && Matches(city, store[ein].city)
            && Matches(state, store[ein].state) && Matches(country, store[ein].country)
            && Matches(deductabilityCode, store[ein].deductabilityCode)
  {
    if ein !in store then false
    else
      var matchers := [(Name, name), (City, city), (State, state), (Country, country),
                       (DeductabilityCode, deductabilityCode)];
      var ok := MatchFold(store[ein], matchers, true);
      assert matchers[0] == (Name, name) && matchers[1] == (City, city) && matchers[2] == (State, state);
      assert matchers[3] == (Country, country) && matchers[4] == (DeductabilityCode, deductabilityCode);
      ok
  }

  /** `get_deductability_code`: the stored code when `verify_nonprofit` with
      the same arguments (and no code matcher) holds, the empty string
      otherwise, in particular for an unknown EIN. */
  function GetDeductabilityCode(store: Store, ein: string, name: Option<string>, city: Option<string>,
                                state: Option<string>, country: Option<string>): (code: string)
    ensures ein !in store ==> code == ""
    ensures code == if VerifyNonprofit(store, ein, name, city, state, country, None)
                    then store[ein].deductabilityCode else ""
  {
    if ein !in store then ""
    else
      var matchers := [(Name, name), (City, city), (State, state), (Country, country)];
      var ok := MatchFold(store[ein], matchers, true);
      assert matchers[0] == (Name, name) && matchers[1] == (City, city);
      assert matchers[2] == (State, state) && matchers[3] == (Country, country);
      if ok then store[ein].deductabilityCode else ""
  }

  /** With only the EIN supplied, a stored organisation is verified and its
      code returned. */
  lemma JustEin(store: Store, ein: string)
    requires ein in store
    ensures VerifyNonprofit(store, ein, None, None, None, None, None)
    ensures GetDeductabilityCode(store, ein, None, None, None, None) == store[ein].deductabilityCode
  {
  }

  /** The American National Red Cross row the query tests run against. */
  const RedCross := Record("530196605", "American National Red Cross", "Charlotte", "NC",
                           "United States", "PC")

  /** The query tests: all arguments, some left out, a wrong city, a bad EIN. */
  lemma QueryExamples(store: Store)
    requires "530196605" in store && store["530196605"] == RedCross
    requires "4" !in store && "6" !in store
    ensures VerifyNonprofit(store, "530196605", Some("American National Red Cross"),
                            Some("Charlotte"), Some("NC"), Some("United States"), Some("PC"))
    ensures VerifyNonprofit(store, "530196605", None, None, Some("NC"), Some("United States"), Some("PC"))
    ensures !VerifyNonprofit(store, "530196605", Some("American National Red Cross"),
                             Some("Boston"), None, None, None)
    ensures !VerifyNonprofit(store, "4", None, None, None, None, None)
    ensures GetDeductabilityCode(store, "530196605", Some("American National Red Cross"),
                                 None, Some("NC"), Some("United States")) == "PC"
    ensures GetDeductabilityCode(store, "530196605", Some("American National Red Cross"),
                                 Some("Boston"), None, None) == ""
    ensures GetDeductabilityCode(store, "6", None, None, None, None) == ""
  {
  }
}
