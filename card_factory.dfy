/**
 * The card-type registry: a table from a type name to the card class that
 * builds it and that type's default options. Cards are created by merging
 * the defaults with the caller's options, caller keys winning.
 */
module CardFactories {
  import opened Wrappers
  import opened Cards

  /** The card classes a type name can be registered with. */
  datatype CardKind =
    | HardwareCard | ProgramCard | ShopCard | ContractCard | CharacterStatCard | ProjectCard

  /**
   * The type string each card class passes to the base card constructor.
   * A card's type therefore comes from its class, not from the name the
   * class was registered under; distinct classes give distinct types.
   */
  function KindType(kind: CardKind): (t: string)
    ensures t in BuiltinTypes
  {
    match kind
    case HardwareCard => "hardware"
    case ProgramCard => "program"
    case ShopCard => "shop"
    case ContractCard => "contract"
    case CharacterStatCard => "character-stat"
    case ProjectCard => "project"
  }

  /** Two card classes give the same type string exactly when they are the same class. */
  lemma KindTypeInjective(a: CardKind, b: CardKind)
    ensures KindType(a) == KindType(b) <==> a == b
  {
  }

  /** The object spread `{ ...defaults, ...options }`: every key of either, the caller's value where both have one. */
  function MergeOptions(defaults: Options, options: Options): (merged: Options)
    ensures merged.Keys == defaults.Keys + options.Keys
    ensures forall key :: key in options ==> merged[key] == options[key]
    ensures forall key :: key in defaults && key !in options ==> merged[key] == defaults[key]
  {
    defaults + options
  }

  /** `items.join(sep)`. */
  function Join(items: seq<string>, sep: string): string
  {
    if items == [] then ""
    else if |items| == 1 then items[0]
    else items[0] + sep + Join(items[1..], sep)
  }

  /** The message `create` throws for a type that is not registered. */
  function UnknownTypeMessage(cardType: string, available: seq<string>): (msg: string)
    ensures |msg| >= |"Unknown card type: " + cardType|
    ensures msg[..|"Unknown card type: " + cardType|] == "Unknown card type: " + cardType
  {
    "Unknown card type: " + cardType + ". Available types: " + Join(available, ", ")
  }

  /** The defaults shared by every built-in type except `program` and `character-stat`. */
  const InteractiveDefaults: Options := map["animate" := Flag(true), "interactive" := Flag(true)]

  /** The registrations made when the card module loads, in order. */
  const BuiltinTypes: seq<string> := ["hardware", "program", "shop", "contract", "character-stat", "project"]

  /**
   * The factory's two static tables as one value: the `registeredTypes`
   * Map (its entries, and its keys in insertion order) and the
   * `defaultOptions` object.
   */
  datatype Registry = Registry(types: map<string, CardKind>, order: seq<string>, defaults: map<string, Options>)

  /** The Map's keys are exactly `order`, listed once each, and every registered type has defaults. */
  ghost predicate WellFormed(r: Registry)
  {
    && (forall t :: t in r.types <==> t in r.order)
    && (forall i, j :: 0 <= i < j < |r.order| ==> r.order[i] != r.order[j])
    && r.types.Keys <= r.defaults.Keys
  }

  /** The tables before any registration. */
  const EmptyRegistry := Registry(map[], [], map[])

  /** The tables after `register(cardType, kind, defaults)`; `Map.set` keeps an existing key's position. */
  function Registered(r: Registry, cardType: string, kind: CardKind, defaults: Options): Registry
  {
    Registry(r.types[cardType := kind],
             if cardType in r.types then r.order else r.order + [cardType],
             r.defaults[cardType := defaults])
  }

  /** The tables once the card module has loaded. */
  function InitialRegistry(): Registry
  {
    var r := Registered(EmptyRegistry, BuiltinTypes[0], HardwareCard, InteractiveDefaults);
    var r := Registered(r, BuiltinTypes[1], ProgramCard, InteractiveDefaults["draggable" := Flag(true)]);
    var r := Registered(r, BuiltinTypes[2], ShopCard, InteractiveDefaults);
    var r := Registered(r, BuiltinTypes[3], ContractCard, InteractiveDefaults);
    var r := Registered(r, BuiltinTypes[4], CharacterStatCard, InteractiveDefaults["interactive" := Flag(false)]);
    Registered(r, BuiltinTypes[5], ProjectCard, InteractiveDefaults)
  }

  class CardFactory {
    /** The `registeredTypes` Map: type name to card class. */
    var registeredTypes: map<string, CardKind>
    /** The Map's keys in insertion order. */
    var order: seq<string>
    /** The `defaultOptions` object: type name to that type's defaults. */
    var defaultOptions: map<string, Options>

    function State(): Registry
      reads this
    {
      Registry(registeredTypes, order, defaultOptions)
    }

    ghost predicate Valid()
      reads this
    {
      WellFormed(State())
    }

    /** The factory before any registration. */
    constructor Empty()
      ensures Valid() && State() == EmptyRegistry
    {
      registeredTypes := map[];
      order := [];
      defaultOptions := map[];
    }

    /** The factory once the card module has registered its six built-in types. */
    constructor ()
      ensures Valid() && State() == InitialRegistry()
      ensures order == BuiltinTypes
    {
      registeredTypes := map[];
      order := [];
      defaultOptions := map[];
      new;
      Register("hardware", HardwareCard, InteractiveDefaults);
      Register("program", ProgramCard, InteractiveDefaults["draggable" := Flag(true)]);
      Register("shop", ShopCard, InteractiveDefaults);
      Register("contract", ContractCard, InteractiveDefaults);
      Register("character-stat", CharacterStatCard, InteractiveDefaults["interactive" := Flag(false)]);
      Register("project", ProjectCard, InteractiveDefaults);
      InitialRegistrationOrder();
    }

    /** Sets both the class and the defaults of `cardType`, replacing any earlier registration. */
    method Register(cardType: string, kind: CardKind, defaults: Options)
      requires Valid()
      modifies this
      ensures Valid()
      ensures State() == Registered(old(State()), cardType, kind, defaults)
    {
      RegisteredIsWellFormed(State(), cardType, kind, defaults);
      if cardType !in registeredTypes {
        order := order + [cardType];
      }
      registeredTypes := registeredTypes[cardType := kind];
      defaultOptions := defaultOptions[cardType := defaults];
    }

    /** `Array.from(registeredTypes.keys())`: every registered type, once, in first-registration order. */
    function GetRegisteredTypes(): (types: seq<string>)
      requires Valid()
      reads this
      ensures forall t :: t in types <==> t in registeredTypes
      ensures forall i, j :: 0 <= i < j < |types| ==> types[i] != types[j]
    {
      order
    }

    /** Whether `cardType` has been registered. */
    function IsRegistered(cardType: string): (b: bool)
      requires Valid()
      reads this
      ensures b <==> cardType in GetRegisteredTypes()
    {
      cardType in registeredTypes
    }

    /**
     * A new card of the registered class with the merged options; an
     * unregistered type is an error whose message names it.
     */
    method Create<D>(cardType: string, data: D, options: Options) returns (r: Result<BaseCard<D>, string>)
      requires Valid()
      ensures r.Failure? <==> cardType !in registeredTypes
      ensures r.Failure? ==> r.error == UnknownTypeMessage(cardType, order)
      ensures r.Success? ==> && fresh(r.value)
                             && r.value.cardType == KindType(registeredTypes[cardType])
                             && r.value.data == data
                             && r.value.options == MergeOptions(defaultOptions[cardType], options)
                             && r.value.animationQueue == [] && !r.value.isDestroyed
                             && !r.value.hasElement && !r.value.isAttached
    {
      if cardType !in registeredTypes {
        return Failure(UnknownTypeMessage(cardType, GetRegisteredTypes()));
      }
      var kind := registeredTypes[cardType];
      var merged := MergeOptions(defaultOptions[cardType], options);
      var card := new BaseCard(KindType(kind), data, merged);
      r := Success(card);
    }

    /**
     * One card per data item, in order, all of `cardType` with the same
     * options. The first failing `create` aborts the batch, so an unknown
     * type is an error only when there is at least one item.
     */
    method CreateBatch<D>(cardType: string, dataArray: seq<D>, options: Options) returns (r: Result<seq<BaseCard<D>>, string>)
      requires Valid()
      ensures r.Failure? <==> cardType !in registeredTypes && dataArray != []
      ensures r.Failure? ==> r.error == UnknownTypeMessage(cardType, order)
      ensures r.Success? ==> |r.value| == |dataArray|
      ensures r.Success? ==> forall i :: 0 <= i < |dataArray| ==>
                && fresh(r.value[i])
                && r.value[i].data == dataArray[i]
                && r.value[i].cardType == KindType(registeredTypes[cardType])
                && r.value[i].options == MergeOptions(defaultOptions[cardType], options)
                && r.value[i].animationQueue == [] && !r.value[i].isDestroyed
                && !r.value[i].hasElement && !r.value[i].isAttached
      ensures r.Success? ==> forall i, j :: 0 <= i < j < |r.value| ==> r.value[i] != r.value[j]
    {
      var cards: seq<BaseCard<D>> := [];
      var i := 0;
      while i < |dataArray|
        invariant 0 <= i <= |dataArray|
        invariant |cards| == i
        invariant i > 0 ==> cardType in registeredTypes
        invariant forall k :: 0 <= k < i ==>
                    && fresh(cards[k])
                    && cards[k].data == dataArray[k]
                    && cards[k].cardType == KindType(registeredTypes[cardType])
                    && cards[k].options == MergeOptions(defaultOptions[cardType], options)
                    && cards[k].animationQueue == [] && !cards[k].isDestroyed
                    && !cards[k].hasElement && !cards[k].isAttached
        invariant forall a, b :: 0 <= a < b < i ==> cards[a] != cards[b]
      {
        var card := Create(cardType, dataArray[i], options);
        if card.Failure? {
          return Failure(card.error);
        }
        cards := cards + [card.value];
        i := i + 1;
      }
      r := Success(cards);
    }
  }

  /** Registration keeps the tables well formed. */
  lemma RegisteredIsWellFormed(r: Registry, cardType: string, kind: CardKind, defaults: Options)
    requires WellFormed(r)
    ensures WellFormed(Registered(r, cardType, kind, defaults))
  {
  }

  /**
   * After `register(cardType, ...)` the type is registered with exactly the
   * given class and defaults, a new type joins the end of the key order, a
   * re-registered one keeps its place, and no other type's entry changes.
   */
  lemma RegisterReplacesOnlyItsType(r: Registry, cardType: string, kind: CardKind, defaults: Options)
    requires WellFormed(r)
    ensures var r' := Registered(r, cardType, kind, defaults);
            && cardType in r'.order
            && r'.types[cardType] == kind && r'.defaults[cardType] == defaults
            && (forall t :: t != cardType ==> (t in r'.types <==> t in r.types))
            && (forall t :: t != cardType && t in r.types ==> r'.types[t] == r.types[t] && r'.defaults[t] == r.defaults[t])
            && (cardType in r.order ==> r'.order == r.order)
            && (cardType !in r.order ==> r'.order == r.order + [cardType])
  {
  }

  /** Once the card module has loaded, exactly the six built-in types are registered, in that order. */
  lemma InitialRegistrationOrder()
    ensures InitialRegistry().order == BuiltinTypes
  {
  }

  /** The tables the card module starts from are well formed: each registered type listed once. */
  lemma InitialRegistryWellFormed()
    ensures WellFormed(InitialRegistry())
  {
    var r0 := EmptyRegistry;
    var r1 := Registered(r0, BuiltinTypes[0], HardwareCard, InteractiveDefaults);
    RegisteredIsWellFormed(r0, BuiltinTypes[0], HardwareCard, InteractiveDefaults);
    var r2 := Registered(r1, BuiltinTypes[1], ProgramCard, InteractiveDefaults["draggable" := Flag(true)]);
    RegisteredIsWellFormed(r1, BuiltinTypes[1], ProgramCard, InteractiveDefaults["draggable" := Flag(true)]);
    var r3 := Registered(r2, BuiltinTypes[2], ShopCard, InteractiveDefaults);
    RegisteredIsWellFormed(r2, BuiltinTypes[2], ShopCard, InteractiveDefaults);
    var r4 := Registered(r3, BuiltinTypes[3], ContractCard, InteractiveDefaults);
    RegisteredIsWellFormed(r3, BuiltinTypes[3], ContractCard, InteractiveDefaults);
    var r5 := Registered(r4, BuiltinTypes[4], CharacterStatCard, InteractiveDefaults["interactive" := Flag(false)]);
    RegisteredIsWellFormed(r4, BuiltinTypes[4], CharacterStatCard, InteractiveDefaults["interactive" := Flag(false)]);
    RegisteredIsWellFormed(r5, BuiltinTypes[5], ProjectCard, InteractiveDefaults);
  }

  /**
   * The built-in types' classes and defaults: `program` defaults to
   * draggable and `character-stat` to not interactive; the other four get
   * `animate` and `interactive` only.
   */
  lemma InitialRegistrationTables()
    ensures InitialRegistry().types == map["hardware" := HardwareCard, "program" := ProgramCard, "shop" := ShopCard,
                                           "contract" := ContractCard, "character-stat" := CharacterStatCard,
                                           "project" := ProjectCard]
    ensures InitialRegistry().defaults == map["hardware" := InteractiveDefaults,
                                              "program" := InteractiveDefaults["draggable" := Flag(true)],
                                              "shop" := InteractiveDefaults,
                                              "contract" := InteractiveDefaults,
                                              "character-stat" := InteractiveDefaults["interactive" := Flag(false)],
                                              "project" := InteractiveDefaults]
    ensures InitialRegistry().defaults["program"]["draggable"] == Flag(true)
    ensures InitialRegistry().defaults["character-stat"]["interactive"] == Flag(false)
  {
  }
}
