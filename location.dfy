/**
 * The location reference data both lead forms read: the U.S. states of the
 * `country-state-city` package and the cities of each state. The package
 * itself is not part of this model; it is an oracle given as two functions.
 */
module Location {
  import opened Wrappers

  /**
   * `codeOf(name)` is the `isoCode` of the state of `State.getStatesOfCountry("US")`
   * whose name is `name`, if any; `citiesOf(code)` is the list of city names of
   * `City.getCitiesOfState("US", code)`.
   */
  datatype LocationData = LocationData(codeOf: string -> Option<string>, citiesOf: string -> seq<string>)

  /** The state code as the handlers use it: present only when the lookup found a truthy (non-empty) code. */
  function KnownCode(data: LocationData, stateName: string): (r: Option<string>)
    ensures r.Some? <==> Truthy(data.codeOf(stateName))
    ensures r.Some? ==> r.value != "" && data.codeOf(stateName) == Some(r.value)
  {
    var code := data.codeOf(stateName);
    if Truthy(code) then code else None
  }
}
