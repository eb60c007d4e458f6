# Creational patterns: builder, factory method, abstract factory

A Dafny model of three small object-construction mechanisms from a
TypeScript design-patterns catalogue, with proofs of what each promises.

- **Builder** (`builder.dfy`): a `PhoneBuilder` owns one `Phone` with four
  string slots (CPU, RAM, Camera, Storage), each starting as a
  "… - not defined" placeholder. One setter per slot overwrites that slot and
  returns the builder, and `build` hands back the phone. Setters are total
  functions on immutable values. A fluent chain is a `seq<Step>` run left to
  right. It is compared with an independent reading, `LastWrite`, which takes
  for each slot the value of the last call that targets it. Object identity is
  modelled by a `Workshop`: a sequence of phones indexed by builder handles.
  This is where two builders are shown never to touch each other's phone.
- **Factory method** (`factory_method.dfy`): three restaurants, each bound to
  one hamburger variant. `orderHamburger` always creates the hamburger and
  then prepares it. `prepare` is modelled by the line it prints, so an order
  yields an output trace. The key read at the terminal is an
  `Option<string>`, where `None` stands for the `null` that `prompt` returns.
  Selection returns a `Result` whose only error is
  `UnknownSelection("No hamburger found")`.
- **Abstract factory** (`abstract_factory.dfy`): two factories, each creating a
  hamburger and a drink. Every variant carries a family tag, so family
  coherence is a lemma about tags. The client `main(factory)` prepares the
  hamburger and then pours the drink.
- `wrappers.dfy` holds `Option` and `Result`.

Messages are the text `console.log` prints, without colours. In the
abstract factory the strings read `'Preparing %c tropical hamburger'`. The
`%c` directive consumes the colour argument and prints nothing, so the
modelled line is `"Preparing  tropical hamburger"`, with the spaces on both
sides of the directive kept. `'%cCommon menu'` becomes `"Common menu"`.

## Model

| member | source | states |
|---|---|---|
| Builder.NewPhone | 01-creacionales/01-builder.ts:19-22 | A new phone holds "CPU - not defined", "RAM - not defined", "Camera - not defined" and "Storage - not defined". |
| Builder.NewBuilder | 01-creacionales/01-builder.ts:38-41 | A new builder owns a phone whose every slot holds its placeholder. |
| Builder.SetCPU | 01-creacionales/01-builder.ts:43-46 | Accepts any string and never fails. Afterwards CPU is that string, and RAM, Camera and Storage are unchanged. |
| Builder.SetRAM | 01-creacionales/01-builder.ts:48-51 | Accepts any string. Afterwards RAM is that string, and every other slot is unchanged. |
| Builder.SetCamera | 01-creacionales/01-builder.ts:53-56 | Accepts any string. Afterwards Camera is that string, and every other slot is unchanged. |
| Builder.SetStorage | 01-creacionales/01-builder.ts:58-61 | Accepts any string. Afterwards Storage is that string, and every other slot is unchanged. |
| Builder.Apply | 01-creacionales/01-builder.ts:43-61 | A single setter call, whichever slot it targets, writes its argument to that slot and only to that slot. |
| Builder.RunLastWrite | 01-creacionales/01-builder.ts:43-61 | After any chain of setter calls, every slot holds the argument of the last call that targets it. If no call targets it, the slot keeps its earlier value. |
| Builder.SameLastWritesSameProduct | 01-creacionales/01-builder.ts:43-61 | Two chains that agree on the last write to every slot produce the same builder. |
| Builder.AnyOrderSameProduct | 01-creacionales/01-builder.ts:43-61 | Making the four setter calls in any order (any permutation) builds the same phone: the one with those four arguments. |
| Builder.SettersCommute | 01-creacionales/01-builder.ts:43-61 | Two setter calls on different slots give the same result in either order. |
| Builder.LastWriteWins | 01-creacionales/01-builder.ts:43-46 | Setting the same slot twice has the same effect as setting it only to the second value. |
| Builder.ChainContents | 01-creacionales/01-builder.ts:19-65 | For every slot, a built phone holds the last value set for that slot, or the placeholder if that slot was never set. |
| Builder.UnsetSlotPlaceholder | 01-creacionales/01-builder.ts:19-65 | A slot that no setter call of the chain targets still shows its "not defined" placeholder in the built phone. |
| Builder.TwoSetterChain | 01-creacionales/01-builder.ts:38-65 | `new PhoneBuilder().setCPU(a).setRAM(r).build()` has CPU `a` and RAM `r`. Camera and Storage keep their placeholders. |
| Builder.Construct | 01-creacionales/01-builder.ts:38-41 | Each `new PhoneBuilder()` gets a handle no earlier builder has. It owns a new all-placeholder phone, and every earlier phone stays as it was. |
| Builder.SetOn | 01-creacionales/01-builder.ts:43-61 | A setter called through a handle does to that handle's phone what the setter does to a builder, and leaves every other handle's phone as it was. |
| Builder.RunOnOwnPhone | 01-creacionales/01-builder.ts:43-65 | A chain called through a handle builds the same phone as that chain run on a builder. |
| Builder.BuildersIndependent | 01-creacionales/01-builder.ts:36-41 | Setter calls on one builder never change the phone owned by any other builder. |
| Builder.MainReports | 01-creacionales/01-builder.ts:68-88 | The demonstration displays "Basic Phone" with Mediatek / 4 GB / 8 MP / 16 GB, then "Advanced Phone" with A18 / 8 GB / 48 MP / 256 GB. |
| Builder.MainKeepsBasicPhone | 01-creacionales/01-builder.ts:69-84 | Building the advanced phone leaves the basic phone, already built, unchanged. |
| FactoryMethod.Prepare | 01-creacionales/02-factory-method.ts:23-39 | Each hamburger prints "Preparing " followed by its filling's name in capitals, then " hamburger". |
| FactoryMethod.CreateHamburger | 01-creacionales/02-factory-method.ts:53-69 | Each restaurant creates the hamburger whose filling is that restaurant's own key: chicken gives chicken, beef gives beef, bean gives bean. |
| FactoryMethod.OrderHamburger | 01-creacionales/02-factory-method.ts:46-49 | An order prints exactly one line, "Preparing <KEY> hamburger", where KEY is the restaurant's key in capitals. |
| FactoryMethod.Select | 01-creacionales/02-factory-method.ts:78-90 | Selection succeeds exactly when the key is "chicken", "beef" or "bean". The chosen restaurant is the one with that key. Any other key, and a null key, fails with UnknownSelection "No hamburger found". |
| FactoryMethod.Main | 01-creacionales/02-factory-method.ts:72-93 | A known key prints only the line for its own variant. An unknown or null key fails with "No hamburger found" and prints nothing. |
| FactoryMethod.SelectKeyRoundTrip | 01-creacionales/02-factory-method.ts:78-87 | Every restaurant is selected by its own key, and by no other key. |
| FactoryMethod.SelectionInjective | 01-creacionales/02-factory-method.ts:78-87 | Distinct known keys give distinct restaurants, distinct hamburgers and distinct printed output. |
| FactoryMethod.MainExamples | 01-creacionales/02-factory-method.ts:72-93 | "beef" prints only "Preparing BEEF hamburger". "tofu" and a null prompt fail with "No hamburger found". |
| AbstractFactory.CreateHamburger | 01-creacionales/03-abstract-factory.ts:56-79 | A factory's hamburger belongs to that factory's family. |
| AbstractFactory.CreateDrink | 01-creacionales/03-abstract-factory.ts:56-79 | A factory's drink belongs to that factory's family. |
| AbstractFactory.Create | 01-creacionales/03-abstract-factory.ts:56-59 | The main-item role yields a hamburger and the side-item role yields a drink. Both belong to the factory's family. |
| AbstractFactory.CreateAll | 01-creacionales/03-abstract-factory.ts:61-79 | Any sequence of creation calls on one factory yields products of the requested roles, all from that factory's family. |
| AbstractFactory.FastFoodProducts | 01-creacionales/03-abstract-factory.ts:61-69 | The fast-food factory creates a TropicalHamburger and a JuiceDrink. |
| AbstractFactory.HealthyProducts | 01-creacionales/03-abstract-factory.ts:71-79 | The healthy factory creates a VeganHamburger and a WaterDrink. |
| AbstractFactory.FamilyCoherence | 01-creacionales/03-abstract-factory.ts:61-79 | Every factory's hamburger and drink share one family. Conversely, every same-family pair is produced by some factory, and two factories that produce the same pair are the same factory. So no factory yields a mixed pair, and each coherent pair belongs to exactly one factory. |
| AbstractFactory.NoMixedProducts | 01-creacionales/03-abstract-factory.ts:61-79 | Any two products from one factory's calls belong to the same family. |
| AbstractFactory.ServeOrder | 01-creacionales/03-abstract-factory.ts:81-87 | `main(factory)` prints exactly two lines: first the hamburger's prepare line, then the drink's pour line, from a coherent pair. |
| AbstractFactory.MessagesIdentifyProducts | 01-creacionales/03-abstract-factory.ts:31-54 | Each hamburger's prepare line and each drink's pour line is its own: distinct products print distinct lines, and no hamburger line equals a drink line. |
| AbstractFactory.ServeIdentifiesFactory | 01-creacionales/03-abstract-factory.ts:31-54 | The printed lines of `main(factory)` tell the two factories apart. |
| AbstractFactory.ProgramOrder | 01-creacionales/03-abstract-factory.ts:89-94 | The script prints "Common menu" and then the fast-food family's lines. After that it prints "Healthy menu" and then the healthy family's lines. |

## Left out

- `Phone.displayInfo`: its text layout is not modelled. A displayed phone appears as `Display(phone)` in the builder demonstration's report.
- Colours, the `%c` CSS arguments and the `COLORS` helper (`helpers/colors.ts` is not part of this model). Messages are plain strings.
- `prompt()`: the terminal read is the `key` parameter of `FactoryMethod.Main`.
- The thrown `Error` is modelled as a `Failure` result. Process exit and the uncaught-exception report are not modelled.
- Inheritance and virtual dispatch: classes are datatype variants, and overridden methods are `match`es.
- Builder.Build: `build()` returns the builder's own phone object, not a copy. A setter called on the same builder after `build()` would therefore also change the phone already returned. The model returns a value instead, so this aliasing is not represented. The source never makes such a call.
- AbstractFactory.Serve and AbstractFactory.Program carry no contract of their own. Their behaviour is stated by `ServeOrder`, `ServeIdentifiesFactory` and `ProgramOrder`.
- AbstractFactory.Prepare and AbstractFactory.Pour carry no contract of their own. `ProgramOrder` fixes their four lines literally, and `MessagesIdentifyProducts` states that each line belongs to exactly one product.
- Builder.Main carries no contract of its own. `MainReports` states the whole report it produces, and `MainKeepsBasicPhone` states that building the advanced phone leaves the basic one unchanged.
- Builder.BuildOn carries no contract of its own. `RunOnOwnPhone` states what it returns after a chain, and `BuildersIndependent` states that no other handle's chain changes it.
- Builder.Workshop pairs each builder with its phone through one shared index, so two builders sharing one phone cannot be represented. This follows the constructor, which gives every builder a `new Phone()` of its own.
