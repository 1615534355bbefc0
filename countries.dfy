/** The country-list hook of src/hooks/useCountries.ts: the dial code of a
    country, the filter that keeps countries with a usable dial code, and
    the fetch step, whose network result is passed in. */
module Countries {
  import opened Types
  import opened Seqs
  import Text
  import Auth

  /** `country.idd.root || ''` */
  function RootOrEmpty(c: Country): string {
    c.idd.root.GetOr("")
  }

  /** `country.idd.suffixes?.[0] || ''` */
  function FirstSuffixOrEmpty(c: Country): string {
    if c.idd.suffixes.Some? && |c.idd.suffixes.value| > 0 then c.idd.suffixes.value[0] else ""
  }

  /** `getCountryDialCode`: the root followed by the first suffix, each
      replaced by "" when missing. */
  function DialCode(c: Country): (r: string)
    ensures HasDialCode(c) ==> r == c.idd.root.value + c.idd.suffixes.value[0] && |r| > 0
    ensures c.idd.root.None? && c.idd.suffixes.None? ==> r == ""
  {
    RootOrEmpty(c) + FirstSuffixOrEmpty(c)
  }

  /** The filter predicate: a non-empty root and at least one suffix. */
  predicate HasDialCode(c: Country) {
    c.idd.root.Some? && c.idd.root.value != ""
    && c.idd.suffixes.Some? && |c.idd.suffixes.value| > 0
  }

  /** The countries the hook keeps, in response order. */
  function ValidCountries(cs: seq<Country>): (r: seq<Country>)
    ensures |r| <= |cs|
    ensures forall k :: 0 <= k < |r| ==> HasDialCode(r[k]) && r[k] in cs
  {
    var kept := Filter(cs, HasDialCode);
    forall k | 0 <= k < |kept| ensures HasDialCode(kept[k]) && kept[k] in cs {
      FilterMembership(cs, HasDialCode, kept[k]);
    }
    kept
  }

  /** What each part contributes: a missing root contributes nothing, and
      missing or empty suffixes leave the root alone. */
  lemma DialCodeParts(c: Country)
    ensures c.idd.root.None? ==> DialCode(c) == FirstSuffixOrEmpty(c)
    ensures (c.idd.suffixes.None? || c.idd.suffixes.value == []) ==> DialCode(c) == RootOrEmpty(c)
    ensures c.idd.root.Some? ==> Text.StartsWith(DialCode(c), c.idd.root.value)
  {
  }

  /** The filter keeps exactly the countries with a dial code, each as
      often as it occurs, so the result is a sub-multiset of the input; a
      kept country's dial code is its root followed by its first suffix and
      is never empty. */
  lemma ValidCountriesExact(cs: seq<Country>, c: Country)
    ensures c in ValidCountries(cs) <==> c in cs && HasDialCode(c)
    ensures multiset(ValidCountries(cs))[c] == if HasDialCode(c) then multiset(cs)[c] else 0
    ensures multiset(ValidCountries(cs)) <= multiset(cs)
    ensures c in ValidCountries(cs) ==>
      DialCode(c) == c.idd.root.value + c.idd.suffixes.value[0] && |DialCode(c)| > 0
  {
    FilterMembership(cs, HasDialCode, c);
    FilterCount(cs, HasDialCode, c);
    FilterSubMultiset(cs, HasDialCode);
  }

  /** The result of the request, as the hook sees it. */
  datatype FetchOutcome =
    | Fetched(data: seq<Country>)       // a successful response and its JSON
    | NotOk                             // `response.ok` is false
    | Thrown(message: Option<string>)   // a thrown value; `None` when it is not an `Error`

  const FetchFailedMessage: string := "Failed to fetch countries"
  const LoadFailedMessage: string := "Failed to load countries"

  /** The message the hook shows for a failed outcome. */
  function ErrorMessage(o: FetchOutcome): (r: Option<string>)
    ensures r.None? <==> o.Fetched?
    ensures o.Thrown? && o.message.Some? ==> r == o.message
    ensures o.Thrown? && o.message.None? ==> r == Some(LoadFailedMessage)
  {
    match o
    case Fetched(_) => None
    case NotOk => Some(FetchFailedMessage)
    case Thrown(m) => Some(m.GetOr(LoadFailedMessage))
  }

  /** The hook's own state beside the countries held by the session store. */
  class CountriesHook {
    var isLoading: bool
    var error: Option<string>
    const store: Auth.AuthStore

    constructor (store: Auth.AuthStore)
      ensures this.store == store
      ensures !isLoading && error == None
    {
      this.store := store;
      isLoading := false;
      error := None;
    }

    /** `fetchCountries`: does nothing when countries are already loaded;
        otherwise stores the valid countries of a successful response, or
        records the error message, and ends not loading. */
    method FetchCountries(outcome: FetchOutcome)
      modifies this, store`countries
      ensures old(store.countries) != [] ==>
        store.countries == old(store.countries) && isLoading == old(isLoading) && error == old(error)
      ensures old(store.countries) == [] ==> !isLoading && error == ErrorMessage(outcome)
      ensures old(store.countries) == [] && outcome.Fetched? ==> store.countries == ValidCountries(outcome.data)
      ensures old(store.countries) == [] && !outcome.Fetched? ==> store.countries == old(store.countries)
    {
      if |store.countries| > 0 {
        return;
      }
      isLoading := true;
      error := None;
      match outcome {
        case Fetched(data) =>
          store.SetCountries(ValidCountries(data));
        case NotOk =>
          error := Some(FetchFailedMessage);
        case Thrown(m) =>
          error := Some(m.GetOr(LoadFailedMessage));
      }
      isLoading := false;
    }
  }
}
