/**
  The factory-method restaurant: every concrete `Restaurant` overrides only
  `createHamburger`, and the shared `orderHamburger` creates a hamburger and
  prepares it. The restaurant is chosen from a key read at the terminal.

  Classes become datatype variants and overriding becomes a `match`;
  `prepare` is modelled by the line it prints, so an order yields its
  output trace.
*/
module FactoryMethod {
  import opened Wrappers

  /** The three concrete hamburger classes. */
  datatype Hamburger = ChickenHamburger | BeefHamburger | BeanHamburger

  /** The three concrete restaurant classes. */
  datatype Restaurant = ChickenRestaurant | BeefRestaurant | BeanRestaurant

  /** The single kind of failure: the key names no restaurant. */
  datatype SelectionError = UnknownSelection(message: string)

  /** The keys the selection `switch` recognises. */
  const KnownKeys: set<string> := {"chicken", "beef", "bean"}

  /** The key that selects restaurant `r`. */
  function Key(r: Restaurant): string {
    match r
    case ChickenRestaurant => "chicken"
    case BeefRestaurant => "beef"
    case BeanRestaurant => "bean"
  }

  /** The filling a hamburger class is named after. */
  function Filling(h: Hamburger): string {
    match h
    case ChickenHamburger => "chicken"
    case BeefHamburger => "beef"
    case BeanHamburger => "bean"
  }

  /** ASCII upper case of one character; every other character is kept. */
  function UpperChar(c: char): char {
    if 'a' <= c <= 'z' then (c as int - 32) as char else c
  }

  /** ASCII upper case of a string, character by character. */
  function Upper(s: string): (u: string)
    ensures |u| == |s|
    ensures forall i :: 0 <= i < |s| ==> u[i] == UpperChar(s[i])
  {
    if s == [] then [] else [UpperChar(s[0])] + Upper(s[1..])
  }

  /** `prepare()`: the line the hamburger prints names its filling in capitals. */
  function Prepare(h: Hamburger): (line: string)
    ensures line == "Preparing " + Upper(Filling(h)) + " hamburger"
  {
    match h
    case ChickenHamburger => "Preparing CHICKEN hamburger"
    case BeefHamburger => "Preparing BEEF hamburger"
    case BeanHamburger => "Preparing BEAN hamburger"
  }

  /** `createHamburger()`: each restaurant creates the hamburger its key names. */
  function CreateHamburger(r: Restaurant): (h: Hamburger)
    ensures Filling(h) == Key(r)
  {
    match r
    case ChickenRestaurant => ChickenHamburger
    case BeefRestaurant => BeefHamburger
    case BeanRestaurant => BeanHamburger
  }

  /** `orderHamburger()`: create, then prepare; exactly one line is printed. */
  function OrderHamburger(r: Restaurant): (trace: seq<string>)
    ensures trace == ["Preparing " + Upper(Key(r)) + " hamburger"]
  {
    var h := CreateHamburger(r);
    [Prepare(h)]
  }

  /** The `switch` of `main`: a key (`None` for a `null` prompt) to a restaurant. */
  function Select(key: Option<string>): (r: Result<Restaurant, SelectionError>)
    ensures r.Success? <==> key.Some? && key.value in KnownKeys
    ensures r.Success? ==> Key(r.value) == key.value
    ensures r.Failure? ==> r.error == UnknownSelection("No hamburger found")
  {
    if key == Some("chicken") then Success(ChickenRestaurant)
    else if key == Some("beef") then Success(BeefRestaurant)
    else if key == Some("bean") then Success(BeanRestaurant)
    else Failure(UnknownSelection("No hamburger found"))
  }

  /**
    `main`: select a restaurant from the key, then order. An unknown key
    fails before any restaurant or hamburger exists, so nothing is printed.
  */
  function Main(key: Option<string>): (r: Result<seq<string>, SelectionError>)
    ensures r.Success? <==> key.Some? && key.value in KnownKeys
    ensures r.Success? ==> r.value == ["Preparing " + Upper(key.value) + " hamburger"]
    ensures r.Failure? ==> r.error == UnknownSelection("No hamburger found")
  {
    match Select(key)
    case Success(restaurant) => Success(OrderHamburger(restaurant))
    case Failure(e) => Failure(e)
  }

  /** Every restaurant is reached by its own key, and only by it. */
  lemma SelectKeyRoundTrip(r: Restaurant, key: Option<string>)
    ensures Select(Some(Key(r))) == Success(r)
    ensures Select(key) == Success(r) <==> key == Some(Key(r))
  {
  }

  /** Distinct known keys give distinct restaurants, hamburgers and printed lines. */
  lemma SelectionInjective(k1: string, k2: string)
    requires k1 in KnownKeys && k2 in KnownKeys && k1 != k2
    ensures Select(Some(k1)).Success? && Select(Some(k2)).Success?
    ensures Select(Some(k1)).value != Select(Some(k2)).value
    ensures CreateHamburger(Select(Some(k1)).value) != CreateHamburger(Select(Some(k2)).value)
    ensures Main(Some(k1)) != Main(Some(k2))
  {
  }

  /** "beef" prints only the BEEF line; "tofu" and a `null` prompt fail. */
  lemma MainExamples()
    ensures Main(Some("beef")) == Success(["Preparing BEEF hamburger"])
    ensures Main(Some("tofu")) == Failure(UnknownSelection("No hamburger found"))
    ensures Main(None) == Failure(UnknownSelection("No hamburger found"))
  {
  }
}
