# Velero: a sailing school's boats, in Dafny

This project models the `Velero` class of the sailing-school exercise (`src/tarea05/Velero.java`)
and proves properties of the model.

A `Velero` is a sailing boat. Its name, number of masts and maximum crew are fixed at
construction. It is either in port, with speed 0, the skipper "Sin patron", the heading
"Sin rumbo" and no crew, or sailing, with a speed of 2 to 30 knots, a non-empty heading and
skipper, and a crew of at most its maximum. It records the minutes it has spent sailing.

Three class-wide counters track the whole school:

- how many boats exist;
- how many are sailing;
- the total minutes sailed.

The operations are:

- the three-argument constructor;
- the default constructor, named "Velero n+1" when n boats exist;
- the factory `crearArrayVelero`, which makes 1 to 10 default boats;
- `iniciarNavegacion`, which sets off;
- `pararNavegacion`, which comes back after some minutes;
- `setRumbo`, which switches between the headings "ceñida" and "empopada";
- `iniciarRegata`, a race won by the faster of two sailing boats with the same heading and masts.

## Modules

- **Outcomes** (`Outcomes.dfy`): the three exceptions the class throws (`NullPointerException`,
  `IllegalArgumentException`, `IllegalStateException`), and the `Result`, `Option` and `Outcome`
  types. A Java `null` argument is `None`.
- **Decimal** (`Decimal.dfy`): the decimal text of a natural number, as string concatenation
  writes it in the default name. Reading the text back gives the number, so different numbers
  have different texts.
- **VeleroState** (`VeleroState.dfy`): one boat as a value (`Boat`), and each operation as a pure
  function. A function returns the new state or the exception, and applies the checks in the
  source's order. These functions are the specification the class is proved against. The module
  also holds lemmas relating several calls, and the 32-bit arithmetic of the finding below.
- **Fleet** (`Fleet.dfy`): how many boats of a sequence of states are sailing and how many minutes
  they have sailed in total, with lemmas for appending a boat and for updating one.
- **Escuela** (`Escuela.dfy`): the imperative model.
  - Class `Registry` holds the three static counters as fields. It also keeps a ghost record of
    every boat created and of its current state. Its invariant `Valid` says that each counter
    equals the aggregate of those states.
  - Class `Velero` has the boat's fields. Its methods update them in place, along with the
    registry counters they touch.
  - `New`, `IniciarNavegacion`, `PararNavegacion` and `SetRumbo` each ensure two things. The new
    state equals the corresponding VeleroState function (`NewBoat`, `StartVoyage`, `StopVoyage`,
    `ChangeHeading`) applied to the old state. The exception reported is the one that function
    gives.
  - The constructor, `NewDefault` and `PutDefault` never throw. Each states the boat it builds
    and the counter it increments.
  - `CrearArrayVelero` states its own `IllegalArgumentException` for a count outside 1..10, and
    keeps its loop over a fresh array.
- **Scenarios** (`Scenarios.dfy`): two client call sequences, proved from the class contracts alone.
  - "Alpha" sets off; a race against a boat still in port fails; "Beta" sets off faster and wins;
    Alpha comes back after 45 minutes.
  - The factory refuses 0 and 11 boats, and makes 10 boats with distinct names.

The registry object stands in for Java's static fields. Every boat holds a reference to it
(`reg`), and the static methods take it as a parameter.

The getters (`getNombreBarco` … `getTiempoTotalNavegacion`, lines 198-294) only return a field.
In the model they are the fields themselves, read directly (`v.rumbo`, `reg.numBarcos`).

### Headings and exception kinds

- `iniciarNavegacion` accepts any non-empty heading (lines 350-355). Only `setRumbo` limits the
  heading to "ceñida" and "empopada" (line 318).
- Asking `setRumbo` for the current heading throws `IllegalStateException` (lines 321-323).
- Every race incompatibility throws `IllegalStateException` (lines 414-427): a boat in port,
  different headings, or different numbers of masts.

## Model

| member | source | states |
|---|---|---|
| Escuela.Registry.constructor | src/tarea05/Velero.java:73-79 | every counter starts at zero, no boat is recorded, and the registry invariant `Registry.Valid` holds. `Valid` is what the three counters mean: numBarcos is the number of boats created, numBarcosNavegando is how many of them are sailing (`Fleet.CountSailing`), and tiempoTotalNavegacion is the sum of their minutes (`Fleet.SumMinutes`) |
| Escuela.Registry.MemberValid | src/tarea05/Velero.java:73-79 | every recorded boat belongs to this registry, and its recorded state is its current state and is consistent |
| Escuela.Registry.CountersBounded | src/tarea05/Velero.java:73-79 | under the invariant, 0 <= numBarcosNavegando <= numBarcos and tiempoTotalNavegacion >= 0 |
| VeleroState.NewBoat | src/tarea05/Velero.java:126-154 | with the class constants of lines 35-65 (MIN_MASTILES 1, MAX_MASTILES 4, MIN_TRIPULANTES 0, PATRON_POR_DEFECTO "Sin patron", RUMBO_POR_DEFECTO "Sin rumbo"): null name is NullPointer; empty name, masts outside 1..4 or crew < 0 is IllegalArgument; otherwise a consistent in-port boat with the given name, masts and crew and 0 minutes |
| Escuela.Velero.constructor | src/tarea05/Velero.java:141-154 | given valid arguments, the new object's fields are exactly NewBoat's boat; numBarcos grows by one; the boat is appended to the registry's record; the registry invariant is kept |
| Escuela.Velero.New | src/tarea05/Velero.java:126-158 | throws exactly what NewBoat throws and then changes nothing; otherwise returns a fresh boat whose fields are NewBoat's, with numBarcos + 1 and the invariant kept |
| VeleroState.DefaultBoat | src/tarea05/Velero.java:165-167 | the default boat is consistent and in port, has 1 mast and 0 crew, and is named `DefaultName(numBarcos)`: "Velero " followed by the decimal text of numBarcos + 1, the expression of line 166 |
| Escuela.Velero.NewDefault | src/tarea05/Velero.java:165-167 | never throws; the new boat's fields are DefaultBoat(numBarcos) for the numBarcos before the call; numBarcos + 1 |
| Decimal.DecimalString | src/tarea05/Velero.java:166 | the text of a number is non-empty, all digits, and has no leading zero unless the number is 0 |
| Decimal.DecimalRoundTrip | src/tarea05/Velero.java:166 | reading the decimal text of n back gives n |
| Decimal.DecimalStringInjective | src/tarea05/Velero.java:166 | different numbers have different decimal texts |
| VeleroState.DefaultNameInjective | src/tarea05/Velero.java:166 | two default names are equal only when they were made at the same boat count |
| VeleroState.DefaultNamesDistinct | src/tarea05/Velero.java:178-188 | default boats created one after another have pairwise distinct names |
| Escuela.Velero.PutDefault | src/tarea05/Velero.java:184-186 | one loop step: a fresh default boat is stored at index i; the rest of the array is unchanged; numBarcos + 1 |
| Escuela.Velero.CrearArrayVelero | src/tarea05/Velero.java:178-188 | a count outside 1..10 is IllegalArgument and changes nothing; otherwise a fresh array of that length whose k-th entry is a fresh boat equal to DefaultBoat(numBarcos + k); numBarcos grows by the count; earlier boats are untouched |
| VeleroState.StartVoyage | src/tarea05/Velero.java:343-372 | with MIN_VELOCIDAD 2 and MAX_VELOCIDAD 30 (lines 45-50): succeeds iff speed is in 2..30, the boat is in port, heading and skipper are non-null and non-empty, and crew is in 0..max; IllegalState iff the speed is valid and the boat is sailing; NullPointer iff the first missing value is null; on success the four given values are set, the boat is sailing and consistent, and nothing else changes |
| Escuela.Velero.IniciarNavegacion | src/tarea05/Velero.java:343-372 | the object's new fields and the outcome are StartVoyage's; on failure nothing changes; numBarcosNavegando grows by one exactly on success; the registry invariant is kept |
| VeleroState.StopVoyage | src/tarea05/Velero.java:382-397 | IllegalState iff in port; IllegalArgument iff sailing and minutes <= 0; on success the boat is back in port with every default and its minutes grow by exactly the given, positive, amount |
| Escuela.Velero.PararNavegacion | src/tarea05/Velero.java:382-397 | the object's new fields and the outcome are StopVoyage's; on success numBarcosNavegando drops by one and tiempoTotalNavegacion grows by the minutes; on failure nothing changes; the invariant is kept |
| VeleroState.ChangeHeading | src/tarea05/Velero.java:310-325 | IllegalState iff in port or the requested heading is a known one equal to the current one; NullPointer iff sailing and null; IllegalArgument iff sailing and the heading is neither "ceñida" nor "empopada"; on success only the heading changes, to the requested, different, known one |
| Escuela.Velero.SetRumbo | src/tarea05/Velero.java:310-325 | the object's new fields and the outcome are ChangeHeading's; no counter changes; the invariant is kept |
| Escuela.Velero.Record | src/tarea05/Velero.java:366-371 | after a transition of this boat, its new state replaces its old one in the registry's record and the counters again equal the aggregates |
| Fleet.CountSailing | src/tarea05/Velero.java:76 | the number of sailing boats lies between 0 and the number of boats |
| Fleet.SumMinutesNonNegative | src/tarea05/Velero.java:79 | consistent boats have sailed a non-negative total |
| Fleet.CountSailingAppend | src/tarea05/Velero.java:154 | adding a boat adds one to the sailing count exactly when it is sailing |
| Fleet.SumMinutesAppend | src/tarea05/Velero.java:154 | adding a boat adds its minutes to the total |
| Fleet.CountSailingUpdate | src/tarea05/Velero.java:371 | replacing one boat's state changes the sailing count by the change in that boat's flag |
| Fleet.SumMinutesUpdate | src/tarea05/Velero.java:389-390 | replacing one boat's state changes the total by the change in that boat's minutes |
| VeleroState.VoyageRoundTrip | src/tarea05/Velero.java:343-397 | a successful start followed by a stop of m > 0 minutes gives back the in-port boat with m more minutes and nothing else changed |
| VeleroState.StartTwiceFails | src/tarea05/Velero.java:347-349 | a second start before any stop throws IllegalState |
| VeleroState.SameHeadingRejected | src/tarea05/Velero.java:321-323 | asking for the current heading always fails, with IllegalState whenever the heading is a known one or the boat is in port |
| VeleroState.RunPreserves | src/tarea05/Velero.java:310-397 | any sequence of calls keeps a boat consistent, keeps its final fields, and never decreases its minutes |
| Escuela.Velero.IniciarRegata | src/tarea05/Velero.java:408-441 | NullPointer iff the other boat is null; IllegalState iff either boat is in port, the headings differ or the masts differ; otherwise this boat wins, the other wins, or it is a tie, exactly as its speed is greater, smaller or equal |
| Escuela.RaceSymmetric | src/tarea05/Velero.java:408-441 | a race seen from the other boat has the mirrored winner, the same tie, and fails exactly when the original fails |
| Scenarios.AlphaBeta | src/tarea05/Velero.java:343-441 | Alpha and Beta: the race against a boat in port is IllegalState; Beta at 14 knots beats Alpha at 10; Alpha's stop after 45 minutes succeeds, leaving 45 minutes on Alpha and in the fleet and one boat sailing |
| Scenarios.Batches | src/tarea05/Velero.java:178-188 | the factory refuses 0 and 11; for 10 it makes 10 boats, with pairwise distinct names, and numBarcos is 10 |
| VeleroState.Int32Add | src/tarea05/Velero.java:389 | Java's int addition: returns a 32-bit value congruent to the exact sum modulo 2^32, and equal to it when the sum fits |
| VeleroState.StopVoyageAsWritten | src/tarea05/Velero.java:382-397 | pararNavegacion with the boat's minutes as a wrapping 32-bit int: IllegalState iff in port, IllegalArgument iff sailing and minutes <= 0; on success the boat is in port, its final fields are kept, and it equals StopVoyage's boat except that the minutes are Int32Add(old minutes, t), within 32 bits |
| VeleroState.MinutesWrapAsWritten | src/tarea05/Velero.java:389 | as written, voyages of 2147483647 and then 1 minutes leave the boat with -2147483648 minutes, fewer than before; StopVoyage gives 2147483648 |

## Left out

- toString (lines 452-461): it only formats text and is not modelled.
- Exception messages: only each exception's kind is modelled, not its text.
- IniciarRegata: returns who wins (`ThisWins`, `OtherWins`, `Tie`) in place of the formatted
  sentence that names the boats.
- tiempoTotalNavegacion is a Java `float` (line 79); it is modelled as an unbounded integer.
  Rounding of float sums above 2^24 is not modelled.
- Counters: 32-bit wrap-around of `numBarcos` and `numBarcosNavegando` is not modelled. `Velero.New` and `Velero.NewDefault` do not model the wrap of `numBarcos`, so
  the default names of more than 2^31 - 1 boats are not as the source would give them.
- Escuela.Velero.PararNavegacion: the boat's minutes are unbounded here. The 32-bit behaviour is
  modelled separately and listed under Findings.
- Concurrency: the static counters are not synchronised in the source, and the model is
  single-threaded.
- The Java array may hold `null`, so `crearArrayVelero` returns `array<Velero?>`. Its contract
  says that every entry is set.

## Findings

| source | as written | input that shows it | evidently intended | confidence | as-written member | corrected member |
|---|---|---|---|---|---|---|
| src/tarea05/Velero.java:389 | `this.tiempoTotalNavegacionBarco += tiempoNavegando` on a 32-bit `int` wraps around | a stop after 2147483647 minutes, then another voyage stopped after 1 minute: the total becomes -2147483648 | the boat's total minutes grow by exactly the minutes sailed and never decrease | not executed; low (needs more than 4000 years of sailing) | VeleroState.MinutesWrapAsWritten | VeleroState.StopVoyage |
