/**
 * The freight-calculator widget: city suggestions for the two place fields,
 * the submit gate, the loading-message counter and the state changes around
 * a quote request.  Each input handler is modelled together with the effect
 * that re-runs because of it.
 */
module Calculator {
  import opened JsBuiltins
  import opened GeminiService

  const MajorCities: seq<string> := [
    "Karachi", "Lahore", "Faisalabad", "Rawalpindi", "Gujranwala", "Peshawar", "Multan", "Hyderabad",
    "Islamabad", "Quetta", "Sialkot", "Sargodha", "Sukkur", "Rahim Yar Khan", "Gawadar"]

  /** The messages the loading indicator cycles through. */
  const LoadingMessages: seq<string> := [
    "Analyzing route distance...",
    "Calculating fuel & tolls...",
    "Checking vehicle availability...",
    "Estimating target bid..."]

  const MissingDetailsMessage: string := "Please provide all shipment details"

  /** A city is offered for a query it contains case-insensitively, unless it is exactly the query. */
  predicate Offers(query: string, city: string)
  {
    Includes(LowerCase(city), LowerCase(query)) && city != query
  }

  /** The cities offered for `query`, in list order. */
  function Offered(cities: seq<string>, query: string): (r: seq<string>)
    ensures forall c :: c in r <==> c in cities && Offers(query, c)
    ensures IsSubsequence(r, cities)
  {
    if cities == [] then []
    else
      var rest := Offered(cities[1..], query);
      if Offers(query, cities[0]) then
        assert ([cities[0]] + rest)[1..] == rest;
        [cities[0]] + rest
      else
        rest
  }

  /** Offered is the array filter with the suggestion test. */
  lemma {:induction false} OfferedIsFilter(cities: seq<string>, query: string)
    ensures Offered(cities, query) == Filter(cities, c => Offers(query, c))
  {
    if cities != [] {
      OfferedIsFilter(cities[1..], query);
    }
  }

  /** The suggestion list for a place field, drawn from `cities` (the widget uses MajorCities). */
  function Suggestions(cities: seq<string>, query: string): seq<string>
  {
    if |query| > 1 then Offered(cities, query) else []
  }

  /** Short queries get nothing; every suggestion is a listed city offered for the query, and every such city is suggested, in list order. */
  lemma SuggestionsSpec(cities: seq<string>, query: string)
    ensures |query| <= 1 ==> Suggestions(cities, query) == []
    ensures forall c :: c in Suggestions(cities, query) <==> |query| > 1 && c in cities && Offers(query, c)
    ensures IsSubsequence(Suggestions(cities, query), cities)
  {
  }

  /** A suggestion is a listed city, never the query itself. */
  lemma SuggestionIsNotQuery(cities: seq<string>, query: string, city: string)
    requires city in Suggestions(cities, query)
    ensures city in cities && city != query
  {
    SuggestionsSpec(cities, query);
  }

  /**
   * A picked suggestion differs from the query it was offered for, is not
   * suggested for itself, and from the major cities leaves nothing to suggest.
   */
  lemma PickedSuggestion(cities: seq<string>, query: string, city: string)
    requires city in Suggestions(cities, query)
    ensures city != query && city !in Suggestions(cities, city)
    ensures cities == MajorCities ==> Suggestions(cities, city) == []
  {
    SuggestionIsNotQuery(cities, query, city);
    CityNotSuggestedForItself(cities, city);
    if cities == MajorCities {
      PickedCityHasNoSuggestions(city);
    }
  }

  /** Once a city is the query it is no longer offered. */
  lemma CityNotSuggestedForItself(cities: seq<string>, city: string)
    ensures city !in Suggestions(cities, city)
  {
    SuggestionsSpec(cities, city);
  }

  /** Neither `letter` nor its capital occurs in `city`. */
  predicate LacksLetter(city: string, letter: char)
  {
    letter !in city && AsciiCapital(letter) !in city
  }

  /** A city that lacks, in either case, one letter of the query is not offered for it. */
  lemma MissingLetterNotOffered(query: string, city: string, k: int)
    requires DottedCapitalI !in query && 0 <= k < |query|
    requires AsciiFold(query[k]) != 'i' && AsciiFold(query[k]) != CombiningDotAbove
    requires LacksLetter(city, AsciiFold(query[k]))
    ensures !Offers(query, city)
  {
    if Includes(LowerCase(city), LowerCase(query)) {
      var letter := AsciiFold(query[k]);
      LowerCaseAt(query, k);
      IncludesCharacters(LowerCase(city), LowerCase(query), k);
      LowerCaseMentions(city, letter);
      var x :| x in city && AsciiFold(x) == letter;
      FoldedFrom(x);
    }
  }

  /** With nothing offered for the query, the suggestion list is empty. */
  lemma {:induction false} NothingOfferedMeansNoSuggestions(cities: seq<string>, query: string)
    requires forall city :: city in cities ==> !Offers(query, city)
    ensures Suggestions(cities, query) == []
  {
    if |query| > 1 && cities != [] {
      assert cities[0] in cities;
      assert forall city :: city in cities[1..] ==> city in cities;
      NothingOfferedMeansNoSuggestions(cities[1..], query);
    }
  }

  /** The major cities spelled without 'b', in either case. */
  lemma LackingB(i: int)
    requires i in {0, 1, 3, 4, 5, 6, 9, 10, 11, 12, 13, 14}
    ensures LacksLetter(MajorCities[i], 'b')
  {
  }

  /** The major cities spelled without 'c', in either case. */
  lemma LackingC(i: int)
    requires i in {1, 2, 3, 4, 5, 6, 7, 8, 9, 10, 11, 12, 13, 14}
    ensures LacksLetter(MajorCities[i], 'c')
  {
  }

  /** The major cities spelled without 'd', in either case. */
  lemma LackingD(i: int)
    requires i in {0, 1, 4, 5, 6, 9, 10, 12, 13}
    ensures LacksLetter(MajorCities[i], 'd')
  {
  }

  /** The major cities spelled without 'e', in either case. */
  lemma LackingE(i: int)
    requires i in {0, 2, 3, 4, 6, 8, 10, 11, 12, 13, 14}
    ensures LacksLetter(MajorCities[i], 'e')
  {
  }

  /** The major cities spelled without 'f', in either case. */
  lemma LackingF(i: int)
    requires i in {0, 1, 3, 4, 5, 6, 7, 8, 9, 10, 11, 12, 13, 14}
    ensures LacksLetter(MajorCities[i], 'f')
  {
  }

  /** The major cities spelled without 'g', in either case. */
  lemma LackingG(i: int)
    requires i in {0, 1, 2, 3, 5, 6, 7, 8, 9, 10, 12, 13}
    ensures LacksLetter(MajorCities[i], 'g')
  {
  }

  /** The major cities spelled without 'j', in either case. */
  lemma LackingJ(i: int)
    requires i in {0, 1, 2, 3, 5, 6, 7, 8, 9, 10, 11, 12, 13, 14}
    ensures LacksLetter(MajorCities[i], 'j')
  {
  }

  /** The major cities spelled without 'k', in either case. */
  lemma LackingK(i: int)
    requires i in {1, 2, 3, 4, 5, 6, 7, 8, 9, 11, 14}
    ensures LacksLetter(MajorCities[i], 'k')
  {
  }

  /** The major cities spelled without 'l', in either case. */
  lemma LackingL(i: int)
    requires i in {0, 5, 7, 9, 11, 12, 13, 14}
    ensures LacksLetter(MajorCities[i], 'l')
  {
  }

  /** The major cities spelled without 'm', in either case. */
  lemma LackingM(i: int)
    requires i in {0, 1, 2, 3, 4, 5, 7, 9, 10, 11, 12, 14}
    ensures LacksLetter(MajorCities[i], 'm')
  {
  }

  /** The major cities spelled without 'n', in either case. */
  lemma LackingN(i: int)
    requires i in {0, 1, 2, 5, 7, 8, 9, 10, 11, 12, 14}
    ensures LacksLetter(MajorCities[i], 'n')
  {
  }

  /** The major cities spelled without 'o', in either case. */
  lemma LackingO(i: int)
    requires i in {0, 2, 3, 4, 5, 6, 7, 8, 9, 12, 13, 14}
    ensures LacksLetter(MajorCities[i], 'o')
  {
  }

  /** The major cities spelled without 'p', in either case. */
  lemma LackingP(i: int)
    requires i in {0, 1, 2, 4, 6, 7, 8, 9, 10, 11, 12, 13, 14}
    ensures LacksLetter(MajorCities[i], 'p')
  {
  }

  /** The major cities spelled without 'q', in either case. */
  lemma LackingQ(i: int)
    requires i in {0, 1, 2, 3, 4, 5, 6, 7, 8, 10, 11, 12, 13, 14}
    ensures LacksLetter(MajorCities[i], 'q')
  {
  }

  /** The major cities spelled without 't', in either case. */
  lemma LackingT(i: int)
    requires i in {0, 1, 2, 3, 4, 5, 7, 8, 11, 12, 13, 14}
    ensures LacksLetter(MajorCities[i], 't')
  {
  }

  /** The major cities spelled without 'u', in either case. */
  lemma LackingU(i: int)
    requires i in {0, 1, 2, 3, 5, 7, 8, 10, 11, 13, 14}
    ensures LacksLetter(MajorCities[i], 'u')
  {
  }

  /** The major cities spelled without 'w', in either case. */
  lemma LackingW(i: int)
    requires i in {0, 1, 2, 6, 7, 8, 9, 10, 11, 12, 13}
    ensures LacksLetter(MajorCities[i], 'w')
  {
  }

  /** The major cities spelled without a space, in either case. */
  lemma LackingSpace(i: int)
    requires i in {0, 1, 2, 3, 4, 5, 6, 7, 8, 9, 10, 11, 12, 14}
    ensures LacksLetter(MajorCities[i], ' ')
  {
  }

  /** No other major city contains Karachi. */
  lemma NothingOfferedForKarachi(i: int)
    requires 0 <= i < |MajorCities| && i != 0
    ensures !Offers(MajorCities[0], MajorCities[i])
  {
    LackingC(i);
    MissingLetterNotOffered(MajorCities[0], MajorCities[i], 4);
  }

  /** No other major city contains Lahore. */
  lemma NothingOfferedForLahore(i: int)
    requires 0 <= i < |MajorCities| && i != 1
    ensures !Offers(MajorCities[1], MajorCities[i])
  {
    if i in {5, 7, 9} {
      LackingL(i);
      MissingLetterNotOffered(MajorCities[1], MajorCities[i], 0);
    } else {
      LackingE(i);
      MissingLetterNotOffered(MajorCities[1], MajorCities[i], 5);
    }
  }

  /** No other major city contains Faisalabad. */
  lemma NothingOfferedForFaisalabad(i: int)
    requires 0 <= i < |MajorCities| && i != 2
    ensures !Offers(MajorCities[2], MajorCities[i])
  {
    LackingF(i);
    MissingLetterNotOffered(MajorCities[2], MajorCities[i], 0);
  }

  /** No other major city contains Rawalpindi. */
  lemma NothingOfferedForRawalpindi(i: int)
    requires 0 <= i < |MajorCities| && i != 3
    ensures !Offers(MajorCities[3], MajorCities[i])
  {
    if i in {2, 7, 8, 11, 14} {
      LackingN(i);
      MissingLetterNotOffered(MajorCities[3], MajorCities[i], 7);
    } else {
      LackingD(i);
      MissingLetterNotOffered(MajorCities[3], MajorCities[i], 8);
    }
  }

  /** No other major city contains Gujranwala. */
  lemma NothingOfferedForGujranwala(i: int)
    requires 0 <= i < |MajorCities| && i != 4
    ensures !Offers(MajorCities[4], MajorCities[i])
  {
    LackingJ(i);
    MissingLetterNotOffered(MajorCities[4], MajorCities[i], 2);
  }

  /** No other major city contains Peshawar. */
  lemma NothingOfferedForPeshawar(i: int)
    requires 0 <= i < |MajorCities| && i != 5
    ensures !Offers(MajorCities[5], MajorCities[i])
  {
    if i in {1, 7, 9} {
      LackingP(i);
      MissingLetterNotOffered(MajorCities[5], MajorCities[i], 0);
    } else {
      LackingE(i);
      MissingLetterNotOffered(MajorCities[5], MajorCities[i], 1);
    }
  }

  /** No other major city contains Multan. */
  lemma NothingOfferedForMultan(i: int)
    requires 0 <= i < |MajorCities| && i != 6
    ensures !Offers(MajorCities[6], MajorCities[i])
  {
    if i in {8, 13} {
      LackingT(i);
      MissingLetterNotOffered(MajorCities[6], MajorCities[i], 3);
    } else {
      LackingM(i);
      MissingLetterNotOffered(MajorCities[6], MajorCities[i], 0);
    }
  }

  /** No other major city contains Hyderabad. */
  lemma NothingOfferedForHyderabad(i: int)
    requires 0 <= i < |MajorCities| && i != 7
    ensures !Offers(MajorCities[7], MajorCities[i])
  {
    if i in {2, 8} {
      LackingE(i);
      MissingLetterNotOffered(MajorCities[7], MajorCities[i], 3);
    } else {
      LackingB(i);
      MissingLetterNotOffered(MajorCities[7], MajorCities[i], 6);
    }
  }

  /** No other major city contains Islamabad. */
  lemma NothingOfferedForIslamabad(i: int)
    requires 0 <= i < |MajorCities| && i != 8
    ensures !Offers(MajorCities[8], MajorCities[i])
  {
    if i in {2, 7} {
      LackingM(i);
      MissingLetterNotOffered(MajorCities[8], MajorCities[i], 4);
    } else {
      LackingB(i);
      MissingLetterNotOffered(MajorCities[8], MajorCities[i], 6);
    }
  }

  /** No other major city contains Quetta. */
  lemma NothingOfferedForQuetta(i: int)
    requires 0 <= i < |MajorCities| && i != 9
    ensures !Offers(MajorCities[9], MajorCities[i])
  {
    LackingQ(i);
    MissingLetterNotOffered(MajorCities[9], MajorCities[i], 0);
  }

  /** No other major city contains Sialkot. */
  lemma NothingOfferedForSialkot(i: int)
    requires 0 <= i < |MajorCities| && i != 10
    ensures !Offers(MajorCities[10], MajorCities[i])
  {
    if i in {0, 12, 13} {
      LackingL(i);
      MissingLetterNotOffered(MajorCities[10], MajorCities[i], 3);
    } else {
      LackingK(i);
      MissingLetterNotOffered(MajorCities[10], MajorCities[i], 4);
    }
  }

  /** No other major city contains Sargodha. */
  lemma NothingOfferedForSargodha(i: int)
    requires 0 <= i < |MajorCities| && i != 11
    ensures !Offers(MajorCities[11], MajorCities[i])
  {
    if i in {2, 3, 7, 8, 14} {
      LackingO(i);
      MissingLetterNotOffered(MajorCities[11], MajorCities[i], 4);
    } else {
      LackingD(i);
      MissingLetterNotOffered(MajorCities[11], MajorCities[i], 5);
    }
  }

  /** No other major city contains Sukkur. */
  lemma NothingOfferedForSukkur(i: int)
    requires 0 <= i < |MajorCities| && i != 12
    ensures !Offers(MajorCities[12], MajorCities[i])
  {
    if i in {0, 10, 13} {
      LackingU(i);
      MissingLetterNotOffered(MajorCities[12], MajorCities[i], 1);
    } else {
      LackingK(i);
      MissingLetterNotOffered(MajorCities[12], MajorCities[i], 2);
    }
  }

  /** No other major city contains Rahim Yar Khan. */
  lemma NothingOfferedForRahimYarKhan(i: int)
    requires 0 <= i < |MajorCities| && i != 13
    ensures !Offers(MajorCities[13], MajorCities[i])
  {
    LackingSpace(i);
    MissingLetterNotOffered(MajorCities[13], MajorCities[i], 5);
  }

  /** No other major city contains Gawadar. */
  lemma NothingOfferedForGawadar(i: int)
    requires 0 <= i < |MajorCities| && i != 14
    ensures !Offers(MajorCities[14], MajorCities[i])
  {
    if i in {11} {
      LackingW(i);
      MissingLetterNotOffered(MajorCities[14], MajorCities[i], 2);
    } else if i in {2, 3, 7, 8} {
      LackingG(i);
      MissingLetterNotOffered(MajorCities[14], MajorCities[i], 0);
    } else {
      LackingD(i);
      MissingLetterNotOffered(MajorCities[14], MajorCities[i], 4);
    }
  }

  /** No major city is contained, case-insensitively, in another. */
  lemma NothingOfferedForMajorCity(q: int, i: int)
    requires 0 <= q < |MajorCities| && 0 <= i < |MajorCities| && q != i
    ensures !Offers(MajorCities[q], MajorCities[i])
  {
    if q == 0 {
      NothingOfferedForKarachi(i);
    } else if q == 1 {
      NothingOfferedForLahore(i);
    } else if q == 2 {
      NothingOfferedForFaisalabad(i);
    } else if q == 3 {
      NothingOfferedForRawalpindi(i);
    } else if q == 4 {
      NothingOfferedForGujranwala(i);
    } else if q == 5 {
      NothingOfferedForPeshawar(i);
    } else if q == 6 {
      NothingOfferedForMultan(i);
    } else if q == 7 {
      NothingOfferedForHyderabad(i);
    } else if q == 8 {
      NothingOfferedForIslamabad(i);
    } else if q == 9 {
      NothingOfferedForQuetta(i);
    } else if q == 10 {
      NothingOfferedForSialkot(i);
    } else if q == 11 {
      NothingOfferedForSargodha(i);
    } else if q == 12 {
      NothingOfferedForSukkur(i);
    } else if q == 13 {
      NothingOfferedForRahimYarKhan(i);
    } else {
      NothingOfferedForGawadar(i);
    }
  }

  /** Picking a major city leaves no suggestions. */
  lemma PickedCityHasNoSuggestions(query: string)
    requires query in MajorCities
    ensures Suggestions(MajorCities, query) == []
  {
    var q :| 0 <= q < |MajorCities| && MajorCities[q] == query;
    forall city | city in MajorCities && city != query
      ensures !Offers(query, city)
    {
      var i :| 0 <= i < |MajorCities| && MajorCities[i] == city;
      NothingOfferedForMajorCity(q, i);
    }
    NothingOfferedMeansNoSuggestions(MajorCities, query);
  }

  /** `!origin || !destination || !cargoType || !weight`: the date may stay empty. */
  predicate MissingDetails(request: QuoteRequest)
  {
    request.origin == "" || request.destination == "" || request.cargoType == "" || request.weight == ""
  }

  /** The gate looks at four fields only: the date never decides it, and it passes exactly when all four are filled. */
  lemma MissingDetailsIgnoresDate(request: QuoteRequest, date: string)
    ensures MissingDetails(request.(date := date)) == MissingDetails(request)
    ensures !MissingDetails(request) <==> |request.origin| > 0 && |request.destination| > 0 && |request.cargoType| > 0 && |request.weight| > 0
  {
  }

  class CalculatorWidget<J> {
    /** The city list the suggestions are drawn from. */
    const cities: seq<string>
    var origin: string
    var destination: string
    var cargoType: string
    var weight: string
    var date: string
    var loading: bool
    var loadingStep: int
    var result: Option<Quote<J>>
    var error: string
    var feedbackGiven: bool
    var originSuggestions: seq<string>
    var destSuggestions: seq<string>

    /** The loading counter indexes the messages and rests at 0 while idle. */
    ghost predicate LoadingValid()
      reads this`loading, this`loadingStep
    {
      0 <= loadingStep < |LoadingMessages| && (!loading ==> loadingStep == 0)
    }

    /** The origin list is the one the origin effect computed. */
    ghost predicate OriginInSync()
      reads this`origin, this`originSuggestions
    {
      originSuggestions == Suggestions(cities, origin)
    }

    /** The destination list is the one the destination effect computed. */
    ghost predicate DestinationInSync()
      reads this`destination, this`destSuggestions
    {
      destSuggestions == Suggestions(cities, destination)
    }

    ghost predicate Valid()
      reads this
    {
      LoadingValid() && OriginInSync() && DestinationInSync()
    }

    /** The form the request is read from. */
    function Request(): QuoteRequest
      reads this
    {
      QuoteRequest(origin, destination, cargoType, weight, date)
    }

    constructor ()
      ensures Valid() && cities == MajorCities
      ensures Request() == QuoteRequest("", "", "", "", "")
      ensures !loading && result == None && error == "" && !feedbackGiven
      ensures originSuggestions == [] && destSuggestions == []
    {
      cities := MajorCities;
      origin, destination, cargoType, weight, date := "", "", "", "", "";
      loading, loadingStep := false, 0;
      result, error, feedbackGiven := None, "", false;
      originSuggestions, destSuggestions := [], [];
    }

    /** Typing in the origin field; the effect then recomputes its suggestions. */
    method EditOrigin(value: string)
      requires Valid()
      modifies this`origin, this`originSuggestions
      ensures Valid()
      ensures origin == value && originSuggestions == Suggestions(cities, value)
    {
      origin := value;
      originSuggestions := Suggestions(cities, value);
    }

    /** Typing in the destination field; the effect then recomputes its suggestions. */
    method EditDestination(value: string)
      requires Valid()
      modifies this`destination, this`destSuggestions
      ensures Valid()
      ensures destination == value && destSuggestions == Suggestions(cities, value)
    {
      destination := value;
      destSuggestions := Suggestions(cities, value);
    }

    method EditCargoType(value: string)
      requires Valid()
      modifies this`cargoType
      ensures Valid() && cargoType == value
    {
      cargoType := value;
    }

    method EditWeight(value: string)
      requires Valid()
      modifies this`weight
      ensures Valid() && weight == value
    {
      weight := value;
    }

    method EditDate(value: string)
      requires Valid()
      modifies this`date
      ensures Valid() && date == value
    {
      date := value;
    }

    /**
     * Clicking an origin suggestion: the field becomes the city and the list
     * is emptied; the field has changed (a suggestion is never the query
     * itself), so the effect recomputes the list for the city, which no
     * longer offers the city.
     */
    method PickOrigin(city: string)
      requires Valid() && city in originSuggestions
      modifies this`origin, this`originSuggestions
      ensures Valid()
      ensures origin == city && originSuggestions == Suggestions(cities, city) && city !in originSuggestions
      ensures cities == MajorCities ==> originSuggestions == []
    {
      PickedSuggestion(cities, origin, city);
      var changed := origin != city;
      origin := city;
      originSuggestions := [];
      if changed {
        originSuggestions := Suggestions(cities, origin);
      }
    }

    /** Clicking a destination suggestion, as for the origin. */
    method PickDestination(city: string)
      requires Valid() && city in destSuggestions
      modifies this`destination, this`destSuggestions
      ensures Valid()
      ensures destination == city && destSuggestions == Suggestions(cities, city) && city !in destSuggestions
      ensures cities == MajorCities ==> destSuggestions == []
    {
      PickedSuggestion(cities, destination, city);
      var changed := destination != city;
      destination := city;
      destSuggestions := [];
      if changed {
        destSuggestions := Suggestions(cities, destination);
      }
    }

    /** One tick of the interval that runs while loading. */
    method Tick()
      requires Valid() && loading
      modifies this`loadingStep
      ensures Valid()
      ensures loadingStep == (old(loadingStep) + 1) % |LoadingMessages|
    {
      loadingStep := (loadingStep + 1) % |LoadingMessages|;
    }

    /**
     * The synchronous part of handleEstimate.  With a required field empty
     * only the error is set; otherwise the request read from the form is
     * returned and the widget enters the loading state.
     */
    method BeginEstimate() returns (request: Option<QuoteRequest>)
      requires Valid()
      modifies this`error, this`loading, this`result, this`feedbackGiven
      ensures Valid()
      ensures request.None? <==> MissingDetails(Request())
      ensures request.None? ==> error == MissingDetailsMessage && loading == old(loading)
                                && result == old(result) && feedbackGiven == old(feedbackGiven)
      ensures request.Some? ==> request.value == Request() && loading && error == ""
                                && result == None && !feedbackGiven
    {
      if MissingDetails(Request()) {
        error := MissingDetailsMessage;
        return None;
      }
      loading := true;
      error := "";
      result := None;
      feedbackGiven := false;
      request := Some(Request());
    }

    /**
     * The rest of handleEstimate once the awaited getSmartQuote settles
     * with `quote`.  The quote always arrives, so the catch branch never
     * runs; the finally block ends loading and the effect resets the counter.
     */
    method CompleteEstimate(quote: Quote<J>)
      requires Valid()
      modifies this`result, this`loading, this`loadingStep
      ensures Valid()
      ensures result == Some(quote)
      ensures !loading && loadingStep == 0
    {
      result := Some(quote);
      loading, loadingStep := false, 0;
    }

    /**
     * handleEstimate from click to settlement: the gate, then, when it
     * lets the request through, the smart quote for exactly the form's
     * request is shown and loading ends.
     */
    method HandleEstimate(call: CallOutcome, parseJson: string -> Option<J>)
      requires Valid()
      modifies this`error, this`loading, this`loadingStep, this`result, this`feedbackGiven
      ensures Valid()
      ensures MissingDetails(Request()) ==> error == MissingDetailsMessage && result == old(result)
                                            && loading == old(loading) && loadingStep == old(loadingStep)
                                            && feedbackGiven == old(feedbackGiven)
      ensures !MissingDetails(Request()) ==>
                error == "" && !loading && !feedbackGiven && result == Some(SmartQuote(Request(), call, parseJson))
    {
      var request := BeginEstimate();
      if request.Some? {
        var quote := SmartQuote(request.value, call, parseJson);
        CompleteEstimate(quote);
      }
    }

    /** Either thumbs button. */
    method GiveFeedback()
      requires Valid()
      modifies this`feedbackGiven
      ensures Valid() && feedbackGiven
    {
      feedbackGiven := true;
    }

    /** The close button on the result card. */
    method DismissResult()
      requires Valid()
      modifies this`result
      ensures Valid() && result == None
    {
      result := None;
    }
  }
}
