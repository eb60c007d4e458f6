/**
  The abstract-factory restaurant: a `RestaurantFactory` creates a hamburger
  and a drink, and each concrete factory creates both from one family. The
  client `main(factory)` prepares the hamburger and then pours the drink.

  Every variant carries the tag of its family, so "no factory hands out a
  mixed pair" is a statement about tags that the lemmas below prove.
  Messages are the text `console.log` prints: a `%c` directive takes the
  colour argument and prints nothing, so the spaces on both sides remain.
*/
module AbstractFactory {

  /** The two product families. */
  datatype Family = FastFood | Healthy

  /** The concrete hamburger classes. */
  datatype Hamburger = TropicalHamburger | VeganHamburger

  /** The concrete drink classes. */
  datatype Drink = JuiceDrink | WaterDrink

  /** The concrete factory classes. */
  datatype RestaurantFactory = FastFoodRestaurantFactory | HealthyFoodRestaurantFactory

  /** The roles a factory fills: `createHamburger` and `createDrink`. */
  datatype Role = MainItem | SideItem

  /** Whatever a factory creates, in either role. */
  datatype Product = Burger(hamburger: Hamburger) | Beverage(drink: Drink)

  function HamburgerFamily(h: Hamburger): Family {
    match h
    case TropicalHamburger => FastFood
    case VeganHamburger => Healthy
  }

  function DrinkFamily(d: Drink): Family {
    match d
    case JuiceDrink => FastFood
    case WaterDrink => Healthy
  }

  function FactoryFamily(f: RestaurantFactory): Family {
    match f
    case FastFoodRestaurantFactory => FastFood
    case HealthyFoodRestaurantFactory => Healthy
  }

  function ProductFamily(p: Product): Family {
    match p
    case Burger(h) => HamburgerFamily(h)
    case Beverage(d) => DrinkFamily(d)
  }

  /** A hamburger and a drink go together when they are of one family. */
  predicate Coherent(h: Hamburger, d: Drink) {
    HamburgerFamily(h) == DrinkFamily(d)
  }

  /** `createHamburger()`: the hamburger of the factory's family. */
  function CreateHamburger(f: RestaurantFactory): (h: Hamburger)
    ensures HamburgerFamily(h) == FactoryFamily(f)
  {
    match f
    case FastFoodRestaurantFactory => TropicalHamburger
    case HealthyFoodRestaurantFactory => VeganHamburger
  }

  /** `createDrink()`: the drink of the factory's family. */
  function CreateDrink(f: RestaurantFactory): (d: Drink)
    ensures DrinkFamily(d) == FactoryFamily(f)
  {
    match f
    case FastFoodRestaurantFactory => JuiceDrink
    case HealthyFoodRestaurantFactory => WaterDrink
  }

  /** The creation operation of a role. */
  function Create(f: RestaurantFactory, role: Role): (p: Product)
    ensures p.Burger? <==> role == MainItem
    ensures ProductFamily(p) == FactoryFamily(f)
  {
    match role
    case MainItem => Burger(CreateHamburger(f))
    case SideItem => Beverage(CreateDrink(f))
  }

  /** Any sequence of creation calls on one factory, in order. */
  function CreateAll(f: RestaurantFactory, roles: seq<Role>): (ps: seq<Product>)
    ensures |ps| == |roles|
    ensures forall i :: 0 <= i < |ps| ==> (ps[i].Burger? <==> roles[i] == MainItem)
    ensures forall i :: 0 <= i < |ps| ==> ProductFamily(ps[i]) == FactoryFamily(f)
    decreases |roles|
  {
    if roles == [] then [] else [Create(f, roles[0])] + CreateAll(f, roles[1..])
  }

  /** `prepare()` of each hamburger. */
  function Prepare(h: Hamburger): string {
    match h
    case TropicalHamburger => "Preparing  tropical hamburger"
    case VeganHamburger => "Preparing  vegan hamburger"
  }

  /** `pour()` of each drink. */
  function Pour(d: Drink): string {
    match d
    case JuiceDrink => "Preparing  juice drink"
    case WaterDrink => "Preparing  water drink"
  }

  /** `main(factory)`: create both, then prepare the hamburger and pour the drink. */
  function Serve(f: RestaurantFactory): seq<string> {
    var hamburger := CreateHamburger(f);
    var drink := CreateDrink(f);
    [Prepare(hamburger), Pour(drink)]
  }

  /** The script's top level: the common menu, then the healthy menu. */
  function Program(): seq<string> {
    ["Common menu"] + Serve(FastFoodRestaurantFactory)
    + ["Healthy menu"] + Serve(HealthyFoodRestaurantFactory)
  }

  /** The fast-food factory makes a tropical hamburger and a juice. */
  lemma FastFoodProducts()
    ensures CreateHamburger(FastFoodRestaurantFactory) == TropicalHamburger
    ensures CreateDrink(FastFoodRestaurantFactory) == JuiceDrink
  {
  }

  /** The healthy factory makes a vegan hamburger and water. */
  lemma HealthyProducts()
    ensures CreateHamburger(HealthyFoodRestaurantFactory) == VeganHamburger
    ensures CreateDrink(HealthyFoodRestaurantFactory) == WaterDrink
  {
  }

  /**
    Family coherence, both ways: every factory yields a coherent pair, and
    every coherent pair is the one pair of exactly one factory.
  */
  lemma FamilyCoherence(h: Hamburger, d: Drink)
    ensures forall f :: Coherent(CreateHamburger(f), CreateDrink(f))
    ensures Coherent(h, d) <==> exists f :: CreateHamburger(f) == h && CreateDrink(f) == d
    ensures forall f, g :: CreateHamburger(f) == CreateHamburger(g) && CreateDrink(f) == CreateDrink(g) ==> f == g
  {
    if Coherent(h, d) {
      var f := if HamburgerFamily(h) == FastFood then FastFoodRestaurantFactory
               else HealthyFoodRestaurantFactory;
      assert CreateHamburger(f) == h && CreateDrink(f) == d;
    }
  }

  /** No sequence of calls on one factory yields two products of different families. */
  lemma NoMixedProducts(f: RestaurantFactory, roles: seq<Role>, i: nat, j: nat)
    requires i < |roles| && j < |roles|
    ensures ProductFamily(CreateAll(f, roles)[i]) == ProductFamily(CreateAll(f, roles)[j])
  {
  }

  /** `main(factory)` prints two lines: its hamburger's, then its drink's, of one family. */
  lemma ServeOrder(f: RestaurantFactory)
    ensures |Serve(f)| == 2
    ensures Serve(f)[0] == Prepare(CreateHamburger(f))
    ensures Serve(f)[1] == Pour(CreateDrink(f))
    ensures Coherent(CreateHamburger(f), CreateDrink(f))
  {
  }

  /**
    The printed lines name their product: no two hamburgers print the same
    line, no two drinks do, and no hamburger line is a drink line.
  */
  lemma MessagesIdentifyProducts(h1: Hamburger, h2: Hamburger, d1: Drink, d2: Drink)
    ensures Prepare(h1) == Prepare(h2) <==> h1 == h2
    ensures Pour(d1) == Pour(d2) <==> d1 == d2
    ensures Prepare(h1) != Pour(d1)
  {
  }

  /** The printed lines tell the two factories apart. */
  lemma ServeIdentifiesFactory(f: RestaurantFactory, g: RestaurantFactory)
    ensures Serve(f) == Serve(g) <==> f == g
  {
  }

  /** The common menu comes first with the fast-food family, then the healthy menu. */
  lemma ProgramOrder()
    ensures |Program()| == 6
    ensures Program()[..3] == ["Common menu"] + Serve(FastFoodRestaurantFactory)
    ensures Program()[3..] == ["Healthy menu"] + Serve(HealthyFoodRestaurantFactory)
    ensures Program() == ["Common menu", "Preparing  tropical hamburger", "Preparing  juice drink",
                          "Healthy menu", "Preparing  vegan hamburger", "Preparing  water drink"]
  {
  }
}
