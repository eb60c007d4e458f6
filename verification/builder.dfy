/**
  The staged phone builder: a `PhoneBuilder` owns one `Phone` whose four
  slots start out as "not defined" placeholders; each setter overwrites its
  own slot and hands back the builder, and `build` returns the phone.

  The builder is modelled functionally: a setter returns the updated builder
  instead of mutating it in place. The separate `Workshop` below models the
  object identities the source relies on when it runs two builders one after
  the other.
*/
module Builder {

  /** The four configuration slots of a phone. */
  datatype Slot = Cpu | Ram | Camera | Storage

  /** A phone: one free-form descriptor per slot. */
  datatype Phone = Phone(cpu: string, ram: string, camera: string, storage: string)

  /** The value a slot holds until its setter is called. */
  function Placeholder(s: Slot): string {
    match s
    case Cpu => "CPU - not defined"
    case Ram => "RAM - not defined"
    case Camera => "Camera - not defined"
    case Storage => "Storage - not defined"
  }

  /** The descriptor `p` holds in slot `s`. */
  function Get(p: Phone, s: Slot): string {
    match s
    case Cpu => p.cpu
    case Ram => p.ram
    case Camera => p.camera
    case Storage => p.storage
  }

  /** A phone is nothing but its four slots. */
  lemma SlotsDeterminePhone(p: Phone, q: Phone)
    requires forall s :: Get(p, s) == Get(q, s)
    ensures p == q
  {
    assert Get(p, Cpu) == Get(q, Cpu) && Get(p, Ram) == Get(q, Ram);
    assert Get(p, Camera) == Get(q, Camera) && Get(p, Storage) == Get(q, Storage);
  }

  /** A freshly created phone: every slot holds its placeholder. */
  function NewPhone(): (p: Phone)
    ensures forall s :: Get(p, s) == Placeholder(s)
    ensures p.cpu == "CPU - not defined" && p.ram == "RAM - not defined"
    ensures p.camera == "Camera - not defined" && p.storage == "Storage - not defined"
  {
    Phone(Placeholder(Cpu), Placeholder(Ram), Placeholder(Camera), Placeholder(Storage))
  }

  /** A builder and the one phone it owns. */
  datatype PhoneBuilder = PhoneBuilder(phone: Phone)

  /** `new PhoneBuilder()`: the builder starts with a new phone. */
  function NewBuilder(): (b: PhoneBuilder)
    ensures forall s :: Get(b.phone, s) == Placeholder(s)
  {
    PhoneBuilder(NewPhone())
  }

  /** `setCPU`: any string is accepted; only the CPU slot changes. */
  function SetCPU(b: PhoneBuilder, cpu: string): (r: PhoneBuilder)
    ensures Get(r.phone, Cpu) == cpu
    ensures forall s :: s != Cpu ==> Get(r.phone, s) == Get(b.phone, s)
  {
    PhoneBuilder(b.phone.(cpu := cpu))
  }

  /** `setRAM`: any string is accepted; only the RAM slot changes. */
  function SetRAM(b: PhoneBuilder, ram: string): (r: PhoneBuilder)
    ensures Get(r.phone, Ram) == ram
    ensures forall s :: s != Ram ==> Get(r.phone, s) == Get(b.phone, s)
  {
    PhoneBuilder(b.phone.(ram := ram))
  }

  /** `setCamera`: any string is accepted; only the Camera slot changes. */
  function SetCamera(b: PhoneBuilder, camera: string): (r: PhoneBuilder)
    ensures Get(r.phone, Camera) == camera
    ensures forall s :: s != Camera ==> Get(r.phone, s) == Get(b.phone, s)
  {
    PhoneBuilder(b.phone.(camera := camera))
  }

  /** `setStorage`: any string is accepted; only the Storage slot changes. */
  function SetStorage(b: PhoneBuilder, storage: string): (r: PhoneBuilder)
    ensures Get(r.phone, Storage) == storage
    ensures forall s :: s != Storage ==> Get(r.phone, s) == Get(b.phone, s)
  {
    PhoneBuilder(b.phone.(storage := storage))
  }

  /** `build`: the accumulated phone, handed back as it is. */
  function Build(b: PhoneBuilder): Phone {
    b.phone
  }

  /** One setter call of a fluent chain: which slot, and the argument. */
  datatype Step = Step(slot: Slot, value: string)

  /** Performs one setter call by dispatching to the slot's own setter. */
  function Apply(b: PhoneBuilder, st: Step): (r: PhoneBuilder)
    ensures Get(r.phone, st.slot) == st.value
    ensures forall s :: s != st.slot ==> Get(r.phone, s) == Get(b.phone, s)
  {
    match st.slot
    case Cpu => SetCPU(b, st.value)
    case Ram => SetRAM(b, st.value)
    case Camera => SetCamera(b, st.value)
    case Storage => SetStorage(b, st.value)
  }

  /** A fluent chain `b.set…(…).set…(…)…`: the calls of `steps`, left to right. */
  function Run(b: PhoneBuilder, steps: seq<Step>): PhoneBuilder
    decreases |steps|
  {
    if steps == [] then b else Run(Apply(b, steps[0]), steps[1..])
  }

  /** `new PhoneBuilder().<steps>.build()`. */
  function Chain(steps: seq<Step>): Phone {
    Build(Run(NewBuilder(), steps))
  }

  /**
    Reference meaning of a chain, read from its end: the argument of the
    last call that targets `s`, or `otherwise` if no call does.
  */
  function LastWrite(steps: seq<Step>, s: Slot, otherwise: string): string
    decreases |steps|
  {
    if steps == [] then otherwise
    else if steps[|steps| - 1].slot == s then steps[|steps| - 1].value
    else LastWrite(steps[..|steps| - 1], s, otherwise)
  }

  /** The first call of a chain can be folded into the fallback value. */
  lemma {:induction false} LastWriteFirst(steps: seq<Step>, s: Slot, otherwise: string)
    requires steps != []
    ensures LastWrite(steps, s, otherwise)
         == LastWrite(steps[1..], s, if steps[0].slot == s then steps[0].value else otherwise)
    decreases |steps|
  {
    var n := |steps|;
    if n > 1 && steps[n - 1].slot != s {
      LastWriteFirst(steps[..n - 1], s, otherwise);
      assert steps[..n - 1][1..] == steps[1..][..n - 2];
    }
  }

  /** Running a chain leaves in every slot the last value written to it. */
  lemma {:induction false} RunLastWrite(b: PhoneBuilder, steps: seq<Step>, s: Slot)
    ensures Get(Run(b, steps).phone, s) == LastWrite(steps, s, Get(b.phone, s))
    decreases |steps|
  {
    if steps != [] {
      RunLastWrite(Apply(b, steps[0]), steps[1..], s);
      LastWriteFirst(steps, s, Get(b.phone, s));
    }
  }

  /** A slot no call of the chain targets keeps its fallback value. */
  lemma {:induction false} LastWriteUntouched(steps: seq<Step>, s: Slot, otherwise: string)
    requires forall i :: 0 <= i < |steps| ==> steps[i].slot != s
    ensures LastWrite(steps, s, otherwise) == otherwise
    decreases |steps|
  {
    if steps != [] {
      LastWriteUntouched(steps[..|steps| - 1], s, otherwise);
    }
  }

  /** If every call that targets `s` passes `v`, and at least one does, then `s` ends as `v`. */
  lemma {:induction false} LastWriteUniform(steps: seq<Step>, s: Slot, v: string, otherwise: string)
    requires exists i :: 0 <= i < |steps| && steps[i].slot == s
    requires forall i :: 0 <= i < |steps| && steps[i].slot == s ==> steps[i].value == v
    ensures LastWrite(steps, s, otherwise) == v
    decreases |steps|
  {
    var n := |steps|;
    if steps[n - 1].slot != s {
      var i :| 0 <= i < n && steps[i].slot == s;
      assert steps[..n - 1][i] == steps[i];
      LastWriteUniform(steps[..n - 1], s, v, otherwise);
    }
  }

  /** Two chains that agree on the last write of every slot build the same phone. */
  lemma SameLastWritesSameProduct(b: PhoneBuilder, xs: seq<Step>, ys: seq<Step>)
    requires forall s :: LastWrite(xs, s, Get(b.phone, s)) == LastWrite(ys, s, Get(b.phone, s))
    ensures Run(b, xs) == Run(b, ys)
  {
    forall s: Slot
      ensures Get(Run(b, xs).phone, s) == Get(Run(b, ys).phone, s)
    {
      RunLastWrite(b, xs, s);
      RunLastWrite(b, ys, s);
    }
    SlotsDeterminePhone(Run(b, xs).phone, Run(b, ys).phone);
  }

  /** The four setter calls, one per slot, whose arguments are the slots of `p`. */
  function Setters(p: Phone): seq<Step> {
    [Step(Cpu, p.cpu), Step(Ram, p.ram), Step(Camera, p.camera), Step(Storage, p.storage)]
  }

  /** Whatever order the four setter calls are made in, the chain builds the same phone. */
  lemma AnyOrderSameProduct(b: PhoneBuilder, steps: seq<Step>, target: Phone)
    requires multiset(steps) == multiset(Setters(target))
    ensures Build(Run(b, steps)) == target
  {
    forall s: Slot
      ensures Get(Run(b, steps).phone, s) == Get(target, s)
    {
      var mine := Step(s, Get(target, s));
      assert mine in Setters(target) by {
        match s
        case Cpu => assert Setters(target)[0] == mine;
        case Ram => assert Setters(target)[1] == mine;
        case Camera => assert Setters(target)[2] == mine;
        case Storage => assert Setters(target)[3] == mine;
      }
      assert mine in multiset(steps);
      var k :| 0 <= k < |steps| && steps[k] == mine;
      forall i | 0 <= i < |steps| && steps[i].slot == s
        ensures steps[i].value == Get(target, s)
      {
        assert steps[i] in multiset(Setters(target));
      }
      LastWriteUniform(steps, s, Get(target, s), Get(b.phone, s));
      RunLastWrite(b, steps, s);
    }
    SlotsDeterminePhone(Run(b, steps).phone, target);
  }

  /** Calls on different slots commute. */
  lemma SettersCommute(b: PhoneBuilder, x: Step, y: Step)
    requires x.slot != y.slot
    ensures Apply(Apply(b, x), y) == Apply(Apply(b, y), x)
  {
  }

  /** Setting the same slot twice keeps only the second value. */
  lemma LastWriteWins(b: PhoneBuilder, s: Slot, first: string, second: string)
    ensures Apply(Apply(b, Step(s, first)), Step(s, second)) == Apply(b, Step(s, second))
  {
  }

  /** What a built phone holds: per slot, the last value set, else the placeholder. */
  lemma ChainContents(steps: seq<Step>, s: Slot)
    ensures Get(Chain(steps), s) == LastWrite(steps, s, Placeholder(s))
  {
    RunLastWrite(NewBuilder(), steps, s);
  }

  /** A slot that no call of the chain sets still holds its placeholder when built. */
  lemma UnsetSlotPlaceholder(steps: seq<Step>, s: Slot)
    requires forall i :: 0 <= i < |steps| ==> steps[i].slot != s
    ensures Get(Chain(steps), s) == Placeholder(s)
  {
    ChainContents(steps, s);
    LastWriteUntouched(steps, s, Placeholder(s));
  }

  /** `new PhoneBuilder().setCPU(a).setRAM(r).build()` sets CPU and RAM and nothing else. */
  lemma TwoSetterChain(a: string, r: string)
    ensures Chain([Step(Cpu, a), Step(Ram, r)])
         == Phone(a, r, "Camera - not defined", "Storage - not defined")
  {
    var steps := [Step(Cpu, a), Step(Ram, r)];
    var b1 := Apply(NewBuilder(), steps[0]);
    var b2 := Apply(b1, steps[1]);
    assert steps[1..] == [steps[1]] && steps[1..][1..] == [];
    assert Run(b1, steps[1..]) == Run(b2, []) == b2;
    var p := Chain(steps);
    assert p == b2.phone;
    SlotsDeterminePhone(p, Phone(a, r, "Camera - not defined", "Storage - not defined"));
  }

  /**
    The builders created so far: the builder with handle `h` owns the phone
    `phones[h]`. Handles stand for object identity; every `new PhoneBuilder()`
    gets a fresh one and, with it, a phone of its own. One index names both
    the builder and its phone: this pairing is taken from the builder's
    constructor, which creates a `new Phone()` for its private, read-only
    field, and is assumed here rather than proved.
  */
  datatype Workshop = Workshop(phones: seq<Phone>)

  /** `new PhoneBuilder()` inside a workshop: a fresh handle that owns a new phone. */
  function Construct(w: Workshop): (r: (Workshop, nat))
    ensures r.1 == |w.phones| && |r.0.phones| == |w.phones| + 1
    ensures r.0.phones[..|w.phones|] == w.phones
    ensures forall s :: Get(r.0.phones[r.1], s) == Placeholder(s)
  {
    (Workshop(w.phones + [NewPhone()]), |w.phones|)
  }

  /** A setter call on the builder with handle `h`. */
  function SetOn(w: Workshop, h: nat, st: Step): (r: Workshop)
    requires h < |w.phones|
    ensures |r.phones| == |w.phones|
    ensures r.phones[h] == Apply(PhoneBuilder(w.phones[h]), st).phone
    ensures forall o :: 0 <= o < |w.phones| && o != h ==> r.phones[o] == w.phones[o]
  {
    Workshop(w.phones[h := Apply(PhoneBuilder(w.phones[h]), st).phone])
  }

  /** A fluent chain on the builder with handle `h`. */
  function RunOn(w: Workshop, h: nat, steps: seq<Step>): (r: Workshop)
    requires h < |w.phones|
    ensures |r.phones| == |w.phones|
    decreases |steps|
  {
    if steps == [] then w else RunOn(SetOn(w, h, steps[0]), h, steps[1..])
  }

  /** `build()` on the builder with handle `h`. */
  function BuildOn(w: Workshop, h: nat): Phone
    requires h < |w.phones|
  {
    w.phones[h]
  }

  /** A chain on a handle does to that handle's phone what `Run` does to a builder. */
  lemma {:induction false} RunOnOwnPhone(w: Workshop, h: nat, steps: seq<Step>)
    requires h < |w.phones|
    ensures BuildOn(RunOn(w, h, steps), h) == Build(Run(PhoneBuilder(w.phones[h]), steps))
    decreases |steps|
  {
    if steps != [] {
      RunOnOwnPhone(SetOn(w, h, steps[0]), h, steps[1..]);
    }
  }

  /** Setters called on one builder never change the phone owned by another. */
  lemma {:induction false} BuildersIndependent(w: Workshop, h: nat, other: nat, steps: seq<Step>)
    requires h < |w.phones| && other < |w.phones| && h != other
    ensures BuildOn(RunOn(w, h, steps), other) == BuildOn(w, other)
    decreases |steps|
  {
    if steps != [] {
      BuildersIndependent(SetOn(w, h, steps[0]), h, other, steps[1..]);
    }
  }

  /** What the demonstration prints: a heading, or a phone shown by `displayInfo`. */
  datatype Report = Heading(text: string) | Display(phone: Phone)

  /** The basic phone's chain. */
  const BasicSetup: seq<Step> :=
    [Step(Cpu, "Mediatek"), Step(Ram, "4 GB"), Step(Camera, "8 MP"), Step(Storage, "16 GB")]

  /** The advanced phone's chain. */
  const AdvancedSetup: seq<Step> :=
    [Step(Cpu, "A18"), Step(Ram, "8 GB"), Step(Camera, "48 MP"), Step(Storage, "256 GB")]

  /** The demonstration: two builders, one after the other, each built and displayed. */
  function Main(): seq<Report> {
    var (w1, basic) := Construct(Workshop([]));
    var basicPhone := BuildOn(RunOn(w1, basic, BasicSetup), basic);
    var (w3, advanced) := Construct(RunOn(w1, basic, BasicSetup));
    var advancedPhone := BuildOn(RunOn(w3, advanced, AdvancedSetup), advanced);
    [Heading("Basic Phone"), Display(basicPhone), Heading("Advanced Phone"), Display(advancedPhone)]
  }

  /** The demonstration shows the two phones exactly as configured, basic first. */
  lemma MainReports()
    ensures Main() == [Heading("Basic Phone"), Display(Phone("Mediatek", "4 GB", "8 MP", "16 GB")),
                       Heading("Advanced Phone"), Display(Phone("A18", "8 GB", "48 MP", "256 GB"))]
  {
  }

  /** Building the advanced phone leaves the already built basic phone untouched. */
  lemma MainKeepsBasicPhone()
    ensures var (w1, basic) := Construct(Workshop([]));
            var w2 := RunOn(w1, basic, BasicSetup);
            var (w3, advanced) := Construct(w2);
            BuildOn(RunOn(w3, advanced, AdvancedSetup), basic) == BuildOn(w2, basic)
  {
  }
}
