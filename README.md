# Livestock animal core of TerraFirmaCraft, in Dafny

This project models the base class of TerraFirmaCraft's livestock animals
(`TFCAnimal`). It covers the following:

- The animal's record: gender, birth day, familiarity, use count and the
  fertilized flag, which are synchronised with clients. Then the day it was
  last fed, the day its familiarity last decayed and the tick at which it last
  tried to mate. Then the engine's own age counter.
- The constructor, which stamps the mating tick and the decay day from the
  calendar.
- The getters and setters of the three timestamps.
- The breeding dispatch that replaces the engine's default pairing. A female
  called with a different partner that implements the animal properties
  interface has `onFertilized` called on her, which marks her fertilized; the
  model reports that call through `fertilize`. A call with the animal
  itself as partner spawns an offspring that inherits a reduced familiarity.
  Every other call does nothing.
- The mate check: same species, other gender, and the partner ready to mate.
- `isBaby`, the disabled `setAge`, and the `finalizeSpawn` rule that
  initialises the synchronised fields unless the spawn comes from breeding.

Files:

- `java_ints.dfy` (module `JavaInts`): Java's `int` and `long`, and the
  narrowing cast `(int)` applied to the day count when a newborn's birth day
  is set.
- `familiarity.dfy` (module `Familiarity`): the inheritance formula over the
  reals, and lemmas about applying the formula repeatedly (properties of the
  formula alone).
- `livestock.dfy` (module `Livestock`): the class `Animal` with its fields
  and operations, and a client method `BirthFromSelfBreeding` that follows a
  newborn through breeding and spawning.

Collaborators the class calls but does not define are parameters of the
operations that use them:

- the animal properties interface's `isReadyToMate` becomes `otherReady`;
- its `getAgeType` becomes `ageType`;
- its `onFertilized` becomes the out-parameter `fertilize`, which reports the
  call for the host to carry out;
- its `initCommonAnimalData` becomes `init`;
- the defaults registered for the synchronised fields become `registered`;
- the calendar becomes a `Calendar` value;
- the entity factory `EntityType.create`, which may fail, becomes `created`;
- the random gender draw becomes `babyGender`.

"Same class" in the mate check is equality of the `species` tag. The setters
of the synchronised fields used on the newborn (`setGender`, `setBirthDay`,
`setFamiliarity`) belong to the animal properties interface, which is not
part of this model. They are modelled as plain writes of the fields.

Points of the code the model follows as written:

- The mate check tests only the species, the genders and the partner's
  `isReadyToMate`. This class checks neither adulthood, nor the fertilized
  flag, nor a mating cooldown.
- A female called with a different partner that implements the animal
  properties interface has `onFertilized` called on her without any
  readiness check in this class.
- `isBaby` compares the age classification with `CHILD`.
- The newborn's birth day is `(int)` of the `long` day count. It equals the
  day count while that fits in an `int`.
- The code takes the newborn's birth day from the server calendar. The
  newborn's constructor reads the calendar of the level it is created in. A
  breeding call runs on the server, so one `server` calendar stands for both.

## Model

| member | source | states |
|---|---|---|
| `JavaInts.NarrowToInt` | src/main/java/net/dries007/tfc/common/entities/livestock/TFCAnimal.java:171 | The `(int)` cast of the `long` day count agrees with it modulo 2^32. It equals the day count exactly when the day count fits in an `int`. |
| `Familiarity.Inherit` | src/main/java/net/dries007/tfc/common/entities/livestock/TFCAnimal.java:172 | A newborn's familiarity is at most the parent's and strictly below a positive parent's. For a parent in [0,1] it stays in [0,1] and at most 0.9. It equals 0.9 exactly when the parent's familiarity is 1, so it is not always strictly below 0.9. |
| `Familiarity.Descendant` | src/main/java/net/dries007/tfc/common/entities/livestock/TFCAnimal.java:172 | A property of the formula alone, not of a running game, where familiarity also changes between births: applying the formula n times to a familiarity in [0,1] stays in [0,1] and never exceeds the start. From the first generation on it is at most 0.9. It stays positive from a positive start. |
| `Familiarity.DescendantNonIncreasing` | src/main/java/net/dries007/tfc/common/entities/livestock/TFCAnimal.java:172 | A property of the formula alone: more applications of it never give more familiarity than fewer. |
| `Familiarity.DescendantDecreasing` | src/main/java/net/dries007/tfc/common/entities/livestock/TFCAnimal.java:172 | A property of the formula alone: from a positive familiarity in range, each further application gives strictly less. |
| `Livestock.Animal.constructor` | src/main/java/net/dries007/tfc/common/entities/livestock/TFCAnimal.java:53-73 | A new animal has its mating time set to the current tick and its last decay day set to the current day. Its last-fed day is 0. Its age counter is 0. Its synchronised fields hold their registered defaults. |
| `Livestock.Animal.IsBaby` | src/main/java/net/dries007/tfc/common/entities/livestock/TFCAnimal.java:143-147 | An animal is a baby exactly when its age classification is CHILD. An adult or old animal is never a baby. |
| `Livestock.Animal.SetAge` | src/main/java/net/dries007/tfc/common/entities/livestock/TFCAnimal.java:149-153 | Whatever age is requested, the engine's age counter becomes 0 and nothing else changes. |
| `Livestock.Animal.SetLastFamiliarityDecay` | src/main/java/net/dries007/tfc/common/entities/livestock/TFCAnimal.java:200-210 | `GetLastFamiliarityDecay` then returns the value set. The last-fed day, the mating time and every other field are unchanged. |
| `Livestock.Animal.SetLastFed` | src/main/java/net/dries007/tfc/common/entities/livestock/TFCAnimal.java:212-222 | `GetLastFed` then returns the value set. The last decay day, the mating time and every other field are unchanged. |
| `Livestock.Animal.SetMated` | src/main/java/net/dries007/tfc/common/entities/livestock/TFCAnimal.java:224-234 | `GetMated` then returns the value set. The last-fed day, the last decay day and every other field are unchanged. |
| `Livestock.Animal.CanMate` | src/main/java/net/dries007/tfc/common/entities/livestock/TFCAnimal.java:250-256 | The check is false for a partner that is not of this class hierarchy or is of another species. It is false for a partner of the same gender. Otherwise it equals the partner's readiness to mate. Hence an animal never mates with itself, and a pair that may mate holds exactly one female. |
| `Livestock.Animal.BreedBranch` | src/main/java/net/dries007/tfc/common/entities/livestock/TFCAnimal.java:158-177 | A call spawns an offspring exactly when the partner is the animal itself. It fertilizes exactly when the partner is different, the animal is female and the partner implements the animal properties interface. A male never fertilizes. A partner outside the interface changes nothing. |
| `Livestock.Animal.GetBreedOffspring` | src/main/java/net/dries007/tfc/common/entities/livestock/TFCAnimal.java:155-177 | A distinct partner never yields an offspring. The `onFertilized` call is reported through `fertilize` exactly in the fertilizing branch. The method's own code writes nothing into this animal's record; that call, which marks the female as fertilized, is left to the host. A self call yields an animal exactly when entity creation succeeds. That animal is fresh and of the same species. It has the drawn gender and the inherited familiarity. Its birth day is the `(int)` of the current day, which equals the current day when that fits in an `int`. Its timestamps are those of a new animal. |
| `Livestock.Animal.FinalizeSpawn` | src/main/java/net/dries007/tfc/common/entities/livestock/TFCAnimal.java:179-188 | A spawn from breeding changes nothing. Any other spawn sets the five synchronised fields to their initial values and leaves the timestamps and the age counter unchanged. |
| `Livestock.BirthFromSelfBreeding` | src/main/java/net/dries007/tfc/common/entities/livestock/TFCAnimal.java:158-188 | A newborn from a self call that is then spawned with the breeding reason keeps the species, drawn gender, inherited familiarity and birth day it got at birth, whatever the initialisation would have picked. It exists exactly when entity creation succeeds. |

## Left out

- `TemplateAccessor.java`: a mixin accessor that exposes a private field of a Minecraft class. It has no logic.
- Brain and AI wiring (`brainProvider`, `makeBrain`, `getBrain`, `customServerAiStep`, `tickBrain`): engine AI integration.
- Sound suppliers and step-sound playback: host callbacks.
- Registration of the synchronised fields, saving and loading, `onSyncedDataUpdated` and `refreshDimensions`: networking and persistence plumbing that delegates to the animal properties interface. Only the registered defaults enter the model, as the `registered` parameter.
- `mobInteract`, `isFood`, `getTypeName`, `animalData`, `animalConfig` and `tick`: thin delegations to the animal properties interface and to the engine.
- Familiarity decay, feeding, readiness to mate, age classification, `onFertilized` and `initCommonAnimalData`: they live in the animal properties interface and the species configuration, which are not part of this model. They enter only as parameters and outputs.
- The engine's own `finalizeSpawn` and `setAge`, which the class calls after its own rule: engine code, not part of this model.
- Familiarity is a `float` in the code and a real here. IEEE rounding of `f / 2` and `f * 0.9`, and of the comparison with `0.9F`, is not modelled.
- Livestock.Animal.GetBreedOffspring: does not perform the `onFertilized` call of the fertilizing branch, which marks the female as fertilized, because that method belongs to the animal properties interface; the call is reported through `fertilize` and the record stays unchanged in the model.
- The random gender draw is the parameter `babyGender`, so any gender may be chosen.
- Concurrency: the code has none.
