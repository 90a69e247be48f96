/** The livestock base entity: the per-animal record, the breeding dispatch
    that replaces the engine's default pairing, mate eligibility and the
    small fixed rules around age and spawning.

    Collaborators of the entity that live outside this class (the animal
    properties interface, the calendar, the engine's entity factory and its
    random source) are parameters of the operations that use them. */
module Livestock {
  import opened JavaInts
  import opened Familiarity

  datatype Gender = Male | Female

  /** Age classification of an animal, as the animal properties interface
      computes it from the birth day and the species configuration. */
  datatype Age = Child | Adult | Old

  /** Why an entity is being spawned; only breeding is told apart here. */
  datatype SpawnReason = Breeding | OtherReason

  /** A reading of the game calendar: absolute ticks and absolute days. */
  datatype Calendar = Calendar(ticks: Long, totalDays: Long)

  /** The five fields synchronised with clients: gender, birth day (an `int`
      day number), familiarity, use count and the fertilized flag. */
  datatype CommonData = CommonData(
    gender: Gender,
    birthDay: Int32,
    familiarity: real,
    uses: Int32,
    fertilized: bool)

  /** Everything the model keeps about one animal: the synchronised fields,
      the three timestamps and the engine's own age counter. */
  datatype AnimalState = AnimalState(
    data: CommonData,
    lastFed: Long,
    lastFDecay: Long,
    matingTime: Long,
    age: Int32)

  /** The other party of a breeding call or a mate check: a livestock animal
      of this class hierarchy, some other mob that implements the animal
      properties interface, or a mob that does not. */
  datatype Partner = Tfc(animal: Animal) | OtherLivestock | OtherMob

  /** The three ways a breeding call can go. */
  datatype Branch = Fertilize | SpawnOffspring | NoBreeding

  class Animal {
    /** The concrete species (the runtime class of the entity). */
    const species: string

    var gender: Gender
    var birthDay: Int32
    var familiarity: real
    var uses: Int32
    var fertilized: bool

    /** Day the animal was last fed. */
    var lastFed: Long
    /** Day the animal's familiarity last decayed. */
    var lastFDecay: Long
    /** Tick at which this animal last tried to fertilize a female. */
    var matingTime: Long

    /** The engine's own growth counter, which this class keeps at 0. */
    var age: Int32

    function Data(): CommonData
      reads this
    {
      CommonData(gender, birthDay, familiarity, uses, fertilized)
    }

    function State(): AnimalState
      reads this
    {
      AnimalState(Data(), lastFed, lastFDecay, matingTime, age)
    }

    /** A new animal of `species`, created at the time `calendar` reads.
        `registered` holds the defaults the synchronised fields receive when
        they are registered. The mating time starts at the current tick and
        the last decay at the current day, so the first tick does not decay;
        the last-fed day keeps Java's default of 0. */
    constructor (species: string, calendar: Calendar, registered: CommonData)
      ensures this.species == species
      ensures State() == AnimalState(registered, 0, calendar.totalDays, calendar.ticks, 0)
    {
      this.species := species;
      gender, birthDay, familiarity := registered.gender, registered.birthDay, registered.familiarity;
      uses, fertilized := registered.uses, registered.fertilized;
      lastFed := 0;
      matingTime := calendar.ticks;
      lastFDecay := calendar.totalDays;
      age := 0;
    }

    /** An animal is a baby exactly when its age classification is `Child`. */
    function IsBaby(ageType: Age): (r: bool)
      ensures r <==> ageType == Child
      ensures r ==> ageType != Adult && ageType != Old
    {
      ageType == Child
    }

    /** The engine's aging is switched off: whatever age is asked for, the
        counter is set to 0 and nothing else changes. */
    method SetAge(requested: Int32)
      modifies this
      ensures age == 0
      ensures State() == old(State()).(age := 0)
    {
      age := 0;
    }

    function GetLastFamiliarityDecay(): Long
      reads this
    {
      lastFDecay
    }

    method SetLastFamiliarityDecay(days: Long)
      modifies this
      ensures GetLastFamiliarityDecay() == days
      ensures GetLastFed() == old(GetLastFed()) && GetMated() == old(GetMated())
      ensures State() == old(State()).(lastFDecay := days)
    {
      lastFDecay := days;
    }

    function GetLastFed(): Long
      reads this
    {
      lastFed
    }

    method SetLastFed(fed: Long)
      modifies this
      ensures GetLastFed() == fed
      ensures GetLastFamiliarityDecay() == old(GetLastFamiliarityDecay()) && GetMated() == old(GetMated())
      ensures State() == old(State()).(lastFed := fed)
    {
      lastFed := fed;
    }

    function GetMated(): Long
      reads this
    {
      matingTime
    }

    method SetMated(ticks: Long)
      modifies this
      ensures GetMated() == ticks
      ensures GetLastFed() == old(GetLastFed()) && GetLastFamiliarityDecay() == old(GetLastFamiliarityDecay())
      ensures State() == old(State()).(matingTime := ticks)
    {
      matingTime := ticks;
    }

    /** Whether this animal may mate with `other`, whose own readiness to mate
        (computed by the animal properties interface) is `otherReady`.
        The partner must be of the same concrete species and of the other
        gender; then the answer is the partner's readiness. In particular an
        animal never mates with itself, and a pair that may mate holds exactly
        one female. */
    function CanMate(other: Partner, otherReady: bool): (r: bool)
      reads this, if other.Tfc? then {other.animal} else {}
      ensures !other.Tfc? ==> !r
      ensures other.Tfc? && other.animal.species != species ==> !r
      ensures other.Tfc? && other.animal.gender == gender ==> !r
      ensures other.Tfc? && other.animal.species == species && other.animal.gender != gender ==>
                (r <==> otherReady)
      ensures r ==> other.Tfc? && other.animal != this
      ensures r ==> other.Tfc? && (gender == Female <==> other.animal.gender == Male)
    {
      other.Tfc? && other.animal.species == species && gender != other.animal.gender && otherReady
    }

    /** Which way a breeding call with `other` goes. A call with itself as the
        partner spawns an offspring; a female called with a different partner
        that implements the animal properties interface has `onFertilized`
        called on her, which marks her fertilized;
        every other call, in particular every call on a male with a different
        partner, does nothing. */
    function BreedBranch(other: Partner): (b: Branch)
      reads this
      ensures b == SpawnOffspring <==> other == Tfc(this)
      ensures b == Fertilize <==> other != Tfc(this) && gender == Female && !other.OtherMob?
      ensures gender == Male ==> b != Fertilize
      ensures other.OtherMob? ==> b == NoBreeding
    {
      if other != Tfc(this) && gender == Female && !other.OtherMob? then Fertilize
      else if other == Tfc(this) then SpawnOffspring
      else NoBreeding
    }

    /** The offspring of a breeding call with `other`.

        `server` is the server calendar, `created` says whether the entity
        factory produced a new entity, `babyGender` is the outcome of the
        random gender draw and `registered` the defaults of the synchronised
        fields of a new entity. In the fertilizing branch the source calls
        `onFertilized(other)` of the animal properties interface, which marks
        this female as fertilized; that call is not part of this model, so
        `fertilize` reports it for the host to perform. The method's own code
        writes nothing into this animal's record.

        A distinct partner never yields an offspring. A self call whose
        entity creation succeeds yields a fresh animal of the same species,
        born on the current day (as an `int`), of the drawn gender, with the
        inherited familiarity; if creation fails the result is null. */
    method GetBreedOffspring(other: Partner, server: Calendar, created: bool, babyGender: Gender,
                             registered: CommonData)
      returns (baby: Animal?, fertilize: bool)
      ensures State() == old(State())
      ensures fertilize <==> BreedBranch(other) == Fertilize
      ensures baby != null <==> BreedBranch(other) == SpawnOffspring && created
      ensures other != Tfc(this) ==> baby == null
      ensures baby != null ==> fresh(baby) && baby.species == species
      ensures baby != null ==>
                baby.State() == AnimalState(
                  registered.(gender := babyGender,
                              birthDay := NarrowToInt(server.totalDays),
                              familiarity := Inherit(familiarity)),
                  0, server.totalDays, server.ticks, 0)
      ensures baby != null && FitsInt32(server.totalDays) ==>
                baby.birthDay as int == server.totalDays as int
    {
      baby, fertilize := null, false;
      match BreedBranch(other)
      case Fertilize =>
        fertilize := true;
      case SpawnOffspring =>
        if created {
          var b := new Animal(species, server, registered);
          b.gender := babyGender;
          b.birthDay := NarrowToInt(server.totalDays);
          b.familiarity := Inherit(familiarity);
          baby := b;
        }
      case NoBreeding =>
    }

    /** Finishing a spawn initialises the synchronised fields to `init` (the
        values the animal properties interface picks for a new animal) unless
        the animal was spawned by breeding, whose fields were already set at
        birth. The timestamps and the age counter are left alone. */
    method FinalizeSpawn(reason: SpawnReason, init: CommonData)
      modifies this
      ensures reason == Breeding ==> State() == old(State())
      ensures reason != Breeding ==> State() == old(State()).(data := init)
    {
      if reason != Breeding {
        gender, birthDay, familiarity := init.gender, init.birthDay, init.familiarity;
        uses, fertilized := init.uses, init.fertilized;
      }
    }
  }

  /** A newborn produced by a self call of `parent` and then spawned with the
      breeding reason keeps what it was given at birth, whatever values the
      initialisation of a new animal would have picked. */
  method BirthFromSelfBreeding(parent: Animal, server: Calendar, created: bool, babyGender: Gender,
                               registered: CommonData, init: CommonData)
    returns (baby: Animal?)
    ensures created <==> baby != null
    ensures baby != null ==> baby.species == parent.species && baby.gender == babyGender
    ensures baby != null ==> baby.familiarity == Inherit(parent.familiarity)
    ensures baby != null ==> baby.birthDay == NarrowToInt(server.totalDays)
  {
    var fertilize;
    baby, fertilize := parent.GetBreedOffspring(Tfc(parent), server, created, babyGender, registered);
    if baby != null {
      baby.FinalizeSpawn(Breeding, init);
    }
  }
}
