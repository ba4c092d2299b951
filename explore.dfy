/**
 * The directory page: offset paging of barbers, search by city, the city
 * pills and the result caption. React's `[selectedCity]` effect is made
 * explicit: changing `selectedCity` to a non-empty value fetches that city.
 */
module Explore {
  import opened Wrappers
  import opened Http
  import opened Text

  const PageSize := 12
  const CitySearchLimit := 20
  const MaxCityPills := 8

  datatype Barber = Barber(id: int, name: string, location: string)

  /** `cities.slice(0, 8)`: the first eight cities, or all of them when there are fewer. */
  function CityPills(cities: seq<string>): (pills: seq<string>)
    ensures |pills| <= MaxCityPills && |pills| <= |cities| && pills == cities[..|pills|]
    ensures |pills| < MaxCityPills ==> pills == cities
  {
    if |cities| <= MaxCityPills then cities else cities[..MaxCityPills]
  }

  /** The plural ending of "barbero" and "encontrado": "s" unless there is exactly one. */
  function PluralSuffix(count: nat): (suffix: string)
    ensures suffix == "s" <==> count != 1
    ensures suffix == "" <==> count == 1
  {
    if count != 1 then "s" else ""
  }

  /** `${n} barbero${s} encontrado${s}`. */
  function Caption(count: nat): (text: string)
    ensures count == 1 ==> text == "1 barbero encontrado"
    ensures |text| > |Decimal(count)| && text[..|Decimal(count)|] == Decimal(count)
    ensures count != 1 ==> text[|text| - 1] == 's'
  {
    Decimal(count) + " barbero" + PluralSuffix(count) + " encontrado" + PluralSuffix(count)
  }

  /**
   * Whether the "load more" button is rendered: only for an unfiltered,
   * non-empty list that the server says continues.
   */
  predicate ShowLoadMore(hasMore: bool, count: nat, selectedCity: string)
    ensures ShowLoadMore(hasMore, count, selectedCity) ==> hasMore && count != 0
    ensures selectedCity != "" ==> !ShowLoadMore(hasMore, count, selectedCity)
  {
    hasMore && count > 0 && selectedCity == ""
  }

  class ExplorePage {
    var barbers: seq<Barber>
    var cities: seq<string>
    var loading: bool
    var searchCity: string
    var selectedCity: string
    var hasMore: bool
    var offset: nat

    /** The offset of the next page is the number of barbers already listed. */
    predicate OffsetTracksList()
      reads this
    {
      offset == |barbers|
    }

    predicate LoadMoreShown()
      reads this
      ensures LoadMoreShown() ==> hasMore && barbers != [] && selectedCity == ""
    {
      ShowLoadMore(hasMore, |barbers|, selectedCity)
    }

    constructor ()
      ensures barbers == [] && cities == [] && loading && searchCity == "" && selectedCity == ""
      ensures hasMore && offset == 0 && OffsetTracksList()
    {
      barbers, cities, loading := [], [], true;
      searchCity, selectedCity := "", "";
      hasMore, offset := true, 0;
    }

    /**
     * `fetchBarbers(loadMore)`: GET /api/barbers?limit=`PageSize`&offset=`requestOffset`.
     * A first page replaces the list, a further page is appended after it;
     * `hasMore` is the server's; on failure the list, `offset` and `hasMore`
     * stay; `loading` ends false.
     */
    method FetchBarbers(loadMore: bool, reply: Reply<Page<Barber>>) returns (requestOffset: nat)
      modifies this`barbers, this`loading, this`hasMore, this`offset
      ensures requestOffset == if loadMore then old(offset) else 0
      ensures !loading
      ensures reply.Ok? ==> barbers == (if loadMore then old(barbers) else []) + reply.value.items
      ensures reply.Ok? ==> hasMore == reply.value.hasMore
      ensures reply.Ok? ==> offset == requestOffset + |reply.value.items|
      ensures reply.Ok? && selectedCity == "" ==> (LoadMoreShown() <==> reply.value.hasMore && barbers != [])
      ensures reply.Ok? && !loadMore && reply.value.items == [] ==> !LoadMoreShown()
      ensures reply.Err? ==> barbers == old(barbers) && hasMore == old(hasMore) && offset == old(offset)
      ensures (loadMore ==> old(OffsetTracksList())) && (reply.Err? ==> old(OffsetTracksList())) ==>
        OffsetTracksList()
    {
      loading := true;
      requestOffset := if loadMore then offset else 0;
      match reply {
        case Ok(page) =>
          if loadMore {
            barbers := barbers + page.items;
          } else {
            barbers := page.items;
          }
          hasMore := page.hasMore;
          offset := requestOffset + |page.items|;
        case Err(_) =>
      }
      loading := false;
    }

    /**
     * `fetchBarbersByCity(city)`: GET /api/barbers/search?city=…&limit=`CitySearchLimit`.
     * The results replace the list, `hasMore` is forced false and `offset`
     * is the number of results; on failure nothing but `loading` changes.
     */
    method FetchBarbersByCity(city: string, reply: Reply<seq<Barber>>)
      modifies this`barbers, this`loading, this`hasMore, this`offset
      ensures !loading
      ensures reply.Ok? ==> barbers == reply.value && !hasMore && OffsetTracksList() && !LoadMoreShown()
      ensures reply.Err? ==> barbers == old(barbers) && hasMore == old(hasMore) && offset == old(offset)
    {
      loading := true;
      match reply {
        case Ok(found) =>
          barbers := found;
          hasMore := false;
          offset := |found|;
        case Err(_) =>
      }
      loading := false;
    }

    /** `fetchCities()`: the list of cities, kept as it was on failure. */
    method FetchCities(reply: Reply<seq<string>>)
      modifies this`cities
      ensures cities == if reply.Ok? then reply.value else old(cities)
    {
      if reply.Ok? {
        cities := reply.value;
      }
    }

    /** Typing in the search box. */
    method SetSearchCity(text: string)
      modifies this`searchCity
      ensures searchCity == text
    {
      searchCity := text;
    }

    /**
     * `setSelectedCity(city)` and the effect on `[selectedCity]`: React runs
     * it only when the value changed, and it fetches only a non-empty city.
     */
    method SelectCity(city: string, reply: Reply<seq<Barber>>) returns (fetched: bool)
      modifies this`selectedCity, this`barbers, this`loading, this`hasMore, this`offset
      ensures selectedCity == city
      ensures fetched == (city != old(selectedCity) && city != "")
      ensures fetched ==> !loading
      ensures fetched && reply.Ok? ==> barbers == reply.value && !hasMore && OffsetTracksList()
      ensures !fetched || reply.Err? ==>
        barbers == old(barbers) && hasMore == old(hasMore) && offset == old(offset)
      ensures !fetched ==> loading == old(loading)
    {
      fetched := city != selectedCity && city != "";
      selectedCity := city;
      if fetched {
        FetchBarbersByCity(city, reply);
      }
    }

    /**
     * `handleCitySearch`: a search box that trims to nothing does nothing;
     * otherwise the trimmed text becomes the selected city.
     */
    method HandleCitySearch(reply: Reply<seq<Barber>>) returns (fetched: bool)
      modifies this`selectedCity, this`barbers, this`loading, this`hasMore, this`offset
      ensures IsBlank(searchCity) ==>
        !fetched && selectedCity == old(selectedCity) && barbers == old(barbers)
        && loading == old(loading) && hasMore == old(hasMore) && offset == old(offset)
      ensures !IsBlank(searchCity) ==> selectedCity == Trim(searchCity) && selectedCity != ""
      ensures fetched <==> !IsBlank(searchCity) && Trim(searchCity) != old(selectedCity)
      ensures fetched && reply.Ok? ==> barbers == reply.value && !hasMore && OffsetTracksList()
      ensures !fetched || reply.Err? ==> barbers == old(barbers) && hasMore == old(hasMore) && offset == old(offset)
      ensures fetched ==> !loading
      ensures !fetched ==> loading == old(loading)
    {
      TrimEmptyIffBlank(searchCity);
      var query := Trim(searchCity);
      if query != "" {
        fetched := SelectCity(query, reply);
      } else {
        fetched := false;
      }
    }

    /**
     * `clearFilters`: both city fields emptied, `offset` reset, then a first
     * page fetched. When that fetch fails, `offset` stays 0 beside whatever
     * list was shown, so it no longer tracks the list.
     */
    method ClearFilters(reply: Reply<Page<Barber>>) returns (requestOffset: nat)
      modifies this`selectedCity, this`searchCity, this`barbers, this`loading, this`hasMore, this`offset
      ensures requestOffset == 0
      ensures selectedCity == "" && searchCity == "" && !loading
      ensures reply.Ok? ==>
        barbers == reply.value.items && hasMore == reply.value.hasMore && OffsetTracksList()
      ensures reply.Err? ==> barbers == old(barbers) && hasMore == old(hasMore) && offset == 0
    {
      selectedCity := "";
      searchCity := "";
      offset := 0;
      requestOffset := FetchBarbers(false, reply);
    }
  }
}
