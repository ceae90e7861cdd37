/**
 * The state of one sailing boat as a value, and its operations as functions over that value.
 * These functions are the specification that the imperative class in module Escuela is proved
 * against: each returns the boat's new state, or the exception the operation throws.
 */
module VeleroState {
  import opened Outcomes
  import Decimal

  // Public class constants (Velero.java:35-65).
  const MIN_MASTILES: int := 1
  const MAX_MASTILES: int := 4
  const MIN_VELOCIDAD: int := 2
  const MAX_VELOCIDAD: int := 30
  const PATRON_POR_DEFECTO: string := "Sin patron"
  const RUMBO_POR_DEFECTO: string := "Sin rumbo"
  const MIN_TRIPULANTES: int := 0

  // The two headings that setRumbo accepts.
  const CENIDA: string := "ceñida"
  const EMPOPADA: string := "empopada"

  // Bounds of crearArrayVelero, written as literals in the source.
  const MIN_CANTIDAD: int := 1
  const MAX_CANTIDAD: int := 10

  /** Every field of a boat: the three final ones first, then the navigation state. */
  datatype Boat = Boat(
    nombreBarco: string,
    numMastiles: int,
    maxTripulantes: int,
    navegando: bool,
    tiempoTotalNavegacionBarco: int,
    velocidad: int,
    patron: string,
    rumbo: string,
    tripulacion: int)

  /** The final fields agree. */
  predicate SameConfig(a: Boat, b: Boat) {
    a.nombreBarco == b.nombreBarco && a.numMastiles == b.numMastiles && a.maxTripulantes == b.maxTripulantes
  }

  /** "In port": not sailing, and every navigation field holds its default. */
  predicate InPort(b: Boat) {
    !b.navegando && b.velocidad == 0 && b.patron == PATRON_POR_DEFECTO
    && b.rumbo == RUMBO_POR_DEFECTO && b.tripulacion == MIN_TRIPULANTES
  }

  /** "Sailing": every navigation field holds a value that iniciarNavegacion accepts. */
  predicate UnderWay(b: Boat) {
    b.navegando && MIN_VELOCIDAD <= b.velocidad <= MAX_VELOCIDAD && b.rumbo != "" && b.patron != ""
    && MIN_TRIPULANTES <= b.tripulacion <= b.maxTripulantes
  }

  /** The configuration that the three-argument constructor accepts. */
  predicate ValidConfig(nombre: string, mastiles: int, tripulantes: int) {
    nombre != "" && MIN_MASTILES <= mastiles <= MAX_MASTILES && tripulantes >= MIN_TRIPULANTES
  }

  /** The object invariant of every boat the class can produce. */
  predicate Consistent(b: Boat) {
    ValidConfig(b.nombreBarco, b.numMastiles, b.maxTripulantes)
    && b.tiempoTotalNavegacionBarco >= 0 && (InPort(b) || UnderWay(b))
  }

  predicate NonEmpty(s: Option<string>) { s.Some? && s.value != "" }

  predicate KnownHeading(s: string) { s == CENIDA || s == EMPOPADA }

  predicate SpeedOk(velocidad: int) { MIN_VELOCIDAD <= velocidad <= MAX_VELOCIDAD }

  predicate CrewOk(b: Boat, tripulacion: int) { MIN_TRIPULANTES <= tripulacion <= b.maxTripulantes }

  /** The state after an operation: the new one on success, the old one untouched on an exception. */
  function After(b: Boat, s: Result<Boat>): Boat {
    if s.Ok? then s.value else b
  }

  /** What a `void` operation reports: normal return or the exception kind. */
  function OutcomeOf(s: Result<Boat>): Outcome {
    if s.Ok? then Pass else Fail(s.error)
  }

  /** The three-argument constructor: its checks, in order, and the boat it builds. */
  function NewBoat(nombre: Option<string>, mastiles: int, tripulantes: int): (r: Result<Boat>)
    ensures r == Err(NullPointer) <==> nombre.None?
    ensures r == Err(IllegalArgument) <==> nombre.Some? && !ValidConfig(nombre.value, mastiles, tripulantes)
    ensures r.Ok? <==> nombre.Some? && ValidConfig(nombre.value, mastiles, tripulantes)
    ensures r.Ok? ==> Consistent(r.value) && InPort(r.value) && r.value.tiempoTotalNavegacionBarco == 0
    ensures r.Ok? ==> r.value.nombreBarco == nombre.value && r.value.numMastiles == mastiles
                      && r.value.maxTripulantes == tripulantes
  {
    if nombre.None? then Err(NullPointer)
    else if nombre.value == "" then Err(IllegalArgument)
    else if mastiles < MIN_MASTILES || mastiles > MAX_MASTILES then Err(IllegalArgument)
    else if tripulantes < MIN_TRIPULANTES then Err(IllegalArgument)
    else Ok(Boat(nombre.value, mastiles, tripulantes, false, 0, 0,
                 PATRON_POR_DEFECTO, RUMBO_POR_DEFECTO, MIN_TRIPULANTES))
  }

  /** The name the default constructor gives when `numBarcos` boats exist already. */
  function DefaultName(numBarcos: nat): string {
    "Velero " + Decimal.DecimalString(numBarcos + 1)
  }

  /** The boat the default constructor builds when `numBarcos` boats exist already. */
  function DefaultBoat(numBarcos: nat): (b: Boat)
    ensures Consistent(b) && InPort(b) && b.tiempoTotalNavegacionBarco == 0
    ensures b.nombreBarco == DefaultName(numBarcos) && b.numMastiles == MIN_MASTILES
            && b.maxTripulantes == MIN_TRIPULANTES
  {
    NewBoat(Some(DefaultName(numBarcos)), MIN_MASTILES, MIN_TRIPULANTES).value
  }

  /** Two default names are equal only when they were made at the same count. */
  lemma DefaultNameInjective(a: nat, b: nat)
    requires DefaultName(a) == DefaultName(b)
    ensures a == b
  {
    var p := "Velero ";
    assert Decimal.DecimalString(a + 1) == DefaultName(a)[|p|..];
    assert Decimal.DecimalString(b + 1) == DefaultName(b)[|p|..];
    Decimal.DecimalStringInjective(a + 1, b + 1);
  }

  /** The default names given to boats created one after another are pairwise distinct. */
  lemma DefaultNamesDistinct(desde: nat, hasta: nat)
    ensures forall i: nat, j: nat :: desde <= i < j < hasta ==> DefaultName(i) != DefaultName(j)
  {
    forall i: nat, j: nat | desde <= i < j < hasta
      ensures DefaultName(i) != DefaultName(j)
    {
      if DefaultName(i) == DefaultName(j) {
        DefaultNameInjective(i, j);
      }
    }
  }

  /** iniciarNavegacion: speed, not sailing, heading, skipper, crew, checked in that order. */
  function StartVoyage(b: Boat, velocidad: int, rumbo: Option<string>, patron: Option<string>,
                       tripulacion: int): (r: Result<Boat>)
    ensures r.Ok? <==> SpeedOk(velocidad) && !b.navegando && NonEmpty(rumbo) && NonEmpty(patron)
                       && CrewOk(b, tripulacion)
    ensures r == Err(IllegalState) <==> SpeedOk(velocidad) && b.navegando
    ensures r == Err(NullPointer) <==>
              SpeedOk(velocidad) && !b.navegando && (rumbo.None? || (NonEmpty(rumbo) && patron.None?))
    ensures r.Ok? ==> SameConfig(b, r.value) && r.value.navegando
                      && r.value.tiempoTotalNavegacionBarco == b.tiempoTotalNavegacionBarco
                      && r.value.velocidad == velocidad && r.value.rumbo == rumbo.value
                      && r.value.patron == patron.value && r.value.tripulacion == tripulacion
    ensures r.Ok? && Consistent(b) ==> Consistent(r.value) && UnderWay(r.value)
  {
    if velocidad < MIN_VELOCIDAD || velocidad > MAX_VELOCIDAD then Err(IllegalArgument)
    else if b.navegando then Err(IllegalState)
    else if rumbo.None? then Err(NullPointer)
    else if rumbo.value == "" then Err(IllegalArgument)
    else if patron.None? then Err(NullPointer)
    else if patron.value == "" then Err(IllegalArgument)
    else if tripulacion < MIN_TRIPULANTES || tripulacion > b.maxTripulantes then Err(IllegalArgument)
    else Ok(b.(velocidad := velocidad, rumbo := rumbo.value, patron := patron.value,
               tripulacion := tripulacion, navegando := true))
  }

  /** pararNavegacion: adds the minutes and puts every navigation field back to its default. */
  function StopVoyage(b: Boat, tiempoNavegando: int): (r: Result<Boat>)
    ensures r == Err(IllegalState) <==> !b.navegando
    ensures r == Err(IllegalArgument) <==> b.navegando && tiempoNavegando <= 0
    ensures r.Ok? <==> b.navegando && tiempoNavegando > 0
    ensures r.Ok? ==> SameConfig(b, r.value) && InPort(r.value)
                      && r.value.tiempoTotalNavegacionBarco == b.tiempoTotalNavegacionBarco + tiempoNavegando
                      && r.value.tiempoTotalNavegacionBarco > b.tiempoTotalNavegacionBarco
    ensures r.Ok? && Consistent(b) ==> Consistent(r.value)
  {
    if !b.navegando then Err(IllegalState)
    else if tiempoNavegando <= 0 then Err(IllegalArgument)
    else Ok(b.(tiempoTotalNavegacionBarco := b.tiempoTotalNavegacionBarco + tiempoNavegando,
               navegando := false, velocidad := 0, rumbo := RUMBO_POR_DEFECTO,
               patron := PATRON_POR_DEFECTO, tripulacion := MIN_TRIPULANTES))
  }

  /** setRumbo: only a sailing boat, only the two known headings, and only a different one. */
  function ChangeHeading(b: Boat, rumbo: Option<string>): (r: Result<Boat>)
    ensures r == Err(NullPointer) <==> b.navegando && rumbo.None?
    ensures r == Err(IllegalArgument) <==> b.navegando && rumbo.Some? && !KnownHeading(rumbo.value)
    ensures r == Err(IllegalState) <==>
              !b.navegando || (rumbo.Some? && KnownHeading(rumbo.value) && rumbo.value == b.rumbo)
    ensures r.Ok? ==> r.value == b.(rumbo := r.value.rumbo) && KnownHeading(r.value.rumbo)
                      && r.value.rumbo != b.rumbo && Some(r.value.rumbo) == rumbo
    ensures r.Ok? && Consistent(b) ==> Consistent(r.value)
  {
    if !b.navegando then Err(IllegalState)
    else if rumbo.None? then Err(NullPointer)
    else if rumbo.value == "" || (rumbo.value != CENIDA && rumbo.value != EMPOPADA) then Err(IllegalArgument)
    else if b.rumbo == rumbo.value then Err(IllegalState)
    else Ok(b.(rumbo := rumbo.value))
  }

  /** A start followed by a stop leaves an in-port boat as it was, except for the minutes sailed. */
  lemma VoyageRoundTrip(b: Boat, velocidad: int, rumbo: Option<string>, patron: Option<string>,
                        tripulacion: int, tiempoNavegando: int)
    requires InPort(b)
    requires StartVoyage(b, velocidad, rumbo, patron, tripulacion).Ok?
    requires tiempoNavegando > 0
    ensures StopVoyage(StartVoyage(b, velocidad, rumbo, patron, tripulacion).value, tiempoNavegando)
            == Ok(b.(tiempoTotalNavegacionBarco := b.tiempoTotalNavegacionBarco + tiempoNavegando))
  {
  }

  /** A second start with the same arguments, before any stop, throws IllegalState. */
  lemma StartTwiceFails(b: Boat, velocidad: int, rumbo: Option<string>, patron: Option<string>,
                        tripulacion: int)
    requires StartVoyage(b, velocidad, rumbo, patron, tripulacion).Ok?
    ensures StartVoyage(StartVoyage(b, velocidad, rumbo, patron, tripulacion).value,
                        velocidad, rumbo, patron, tripulacion) == Err(IllegalState)
  {
  }

  /** Asking for the current heading always fails: IllegalState when that heading is a known one. */
  lemma SameHeadingRejected(b: Boat)
    ensures ChangeHeading(b, Some(b.rumbo)).Err?
    ensures KnownHeading(b.rumbo) || !b.navegando ==> ChangeHeading(b, Some(b.rumbo)) == Err(IllegalState)
  {
  }

  /** One call on a boat, as a value. */
  datatype Op =
    | Start(velocidad: int, rumbo: Option<string>, patron: Option<string>, tripulacion: int)
    | Stop(tiempoNavegando: int)
    | Heading(nuevoRumbo: Option<string>)

  function Step(b: Boat, op: Op): Result<Boat> {
    match op
    case Start(v, r, p, t) => StartVoyage(b, v, r, p, t)
    case Stop(m) => StopVoyage(b, m)
    case Heading(r) => ChangeHeading(b, r)
  }

  /** The boat after a sequence of calls; a call that throws leaves the boat as it was. */
  function Run(b: Boat, ops: seq<Op>): Boat
    decreases |ops|
  {
    if ops == [] then b else Run(After(b, Step(b, ops[0])), ops[1..])
  }

  /** Any history keeps the object invariant and the final fields; the minutes never decrease. */
  lemma {:induction false} RunPreserves(b: Boat, ops: seq<Op>)
    requires Consistent(b)
    ensures Consistent(Run(b, ops)) && SameConfig(b, Run(b, ops))
    ensures Run(b, ops).tiempoTotalNavegacionBarco >= b.tiempoTotalNavegacionBarco
    decreases |ops|
  {
    if ops != [] {
      var next := After(b, Step(b, ops[0]));
      assert Consistent(next) && SameConfig(b, next);
      assert next.tiempoTotalNavegacionBarco >= b.tiempoTotalNavegacionBarco;
      RunPreserves(next, ops[1..]);
    }
  }

  // Java's `int` is 32 bits wide; `+=` on an int wraps around.
  const INT_MIN: int := -0x8000_0000
  const INT_MAX: int := 0x7fff_ffff

  predicate IsInt(x: int) { INT_MIN <= x <= INT_MAX }

  /** Java's `int` addition: the exact sum brought back into 32 bits, modulo 2^32. */
  function Int32Add(a: int, b: int): (r: int)
    requires IsInt(a) && IsInt(b)
    ensures IsInt(r) && (r - (a + b)) % 0x1_0000_0000 == 0
    ensures IsInt(a + b) ==> r == a + b
  {
    var s := a + b;
    if s > INT_MAX then s - 0x1_0000_0000 else if s < INT_MIN then s + 0x1_0000_0000 else s
  }

  /** pararNavegacion as the source computes it: the boat's minutes are a 32-bit `int`. */
  function StopVoyageAsWritten(b: Boat, tiempoNavegando: int): (r: Result<Boat>)
    requires IsInt(b.tiempoTotalNavegacionBarco) && IsInt(tiempoNavegando)
    ensures r == Err(IllegalState) <==> !b.navegando
    ensures r == Err(IllegalArgument) <==> b.navegando && tiempoNavegando <= 0
    ensures r.Ok? <==> b.navegando && tiempoNavegando > 0
    ensures r.Ok? ==> IsInt(r.value.tiempoTotalNavegacionBarco)
    ensures r.Ok? ==> InPort(r.value) && SameConfig(b, r.value)
                      && r.value == StopVoyage(b, tiempoNavegando).value.(
                           tiempoTotalNavegacionBarco := Int32Add(b.tiempoTotalNavegacionBarco, tiempoNavegando))
  {
    if !b.navegando then Err(IllegalState)
    else if tiempoNavegando <= 0 then Err(IllegalArgument)
    else Ok(b.(tiempoTotalNavegacionBarco := Int32Add(b.tiempoTotalNavegacionBarco, tiempoNavegando),
               navegando := false, velocidad := 0, rumbo := RUMBO_POR_DEFECTO,
               patron := PATRON_POR_DEFECTO, tripulacion := MIN_TRIPULANTES))
  }

  /**
   * Two voyages, of 2147483647 minutes and then of 1 minute, leave a boat with a negative total
   * as written, while StopVoyage keeps the exact sum.
   */
  lemma MinutesWrapAsWritten()
    ensures var b0 := Boat("Velero 1", 1, 0, false, 0, 0, PATRON_POR_DEFECTO, RUMBO_POR_DEFECTO, 0);
            var s1 := StartVoyage(b0, 10, Some(CENIDA), Some("Ana"), 0);
            s1.Ok? &&
            var p1 := StopVoyageAsWritten(s1.value, INT_MAX);
            p1.Ok? &&
            var s2 := StartVoyage(p1.value, 10, Some(CENIDA), Some("Ana"), 0);
            s2.Ok? &&
            var p2 := StopVoyageAsWritten(s2.value, 1);
            p2.Ok? && p2.value.tiempoTotalNavegacionBarco == INT_MIN
            && p2.value.tiempoTotalNavegacionBarco < p1.value.tiempoTotalNavegacionBarco
            && StopVoyage(s2.value, 1).value.tiempoTotalNavegacionBarco == INT_MAX + 1
  {
  }
}
