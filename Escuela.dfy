/**
 * The sailing-school boat class: each object updates its own fields in place, and every
 * transition also updates the three class-wide counters, held here by one Registry object.
 */
module Escuela {
  import opened Outcomes
  import opened VeleroState
  import opened Fleet

  /** Who reaches the finishing line first, in place of the formatted message. */
  datatype RaceOutcome = ThisWins | OtherWins | Tie

  /**
   * The private static fields of the class (Velero.java:73-79), with a ghost record of every
   * boat created so far, in order of creation, and of each one's current state.
   */
  class Registry {
    var numBarcos: int
    var numBarcosNavegando: int
    var tiempoTotalNavegacion: int
    ghost var fleet: seq<Velero>
    ghost var states: seq<Boat>

    /** Entry `i` of the ghost record is boat number `i`, its current state, and that state is consistent. */
    ghost predicate Entry(i: nat)
      reads this, fleet
    {
      i < |fleet| && i < |states| && fleet[i].reg == this && fleet[i].id == i
      && fleet[i].Snapshot() == states[i] && Consistent(states[i])
    }

    /**
     * numBarcos counts the boats created, numBarcosNavegando the ones sailing, and
     * tiempoTotalNavegacion is the sum of every boat's own minutes.
     */
    ghost predicate Valid()
      reads this, fleet
    {
      |fleet| == |states| == numBarcos
      && (forall i :: 0 <= i < |fleet| ==> Entry(i))
      && numBarcosNavegando == CountSailing(states)
      && tiempoTotalNavegacion == SumMinutes(states)
    }

    /** The static initialisers: every counter starts at zero. */
    constructor ()
      ensures Valid() && fleet == []
      ensures numBarcos == 0 && numBarcosNavegando == 0 && tiempoTotalNavegacion == 0
    {
      numBarcos, numBarcosNavegando, tiempoTotalNavegacion := 0, 0, 0;
      fleet, states := [], [];
    }

    /** Boat number `k` belongs to this registry, and its recorded state is its current, consistent state. */
    lemma MemberValid(k: nat)
      requires Valid() && k < |fleet|
      ensures fleet[k].reg == this && fleet[k].id == k && fleet[k].Registered()
      ensures fleet[k].Snapshot() == states[k] && Consistent(states[k])
    {
      assert Entry(k);
    }

    /** No more boats sail than exist, and the fleet total is never negative. */
    lemma CountersBounded()
      requires Valid()
      ensures 0 <= numBarcosNavegando <= numBarcos
      ensures tiempoTotalNavegacion >= 0
    {
      forall i | 0 <= i < |states|
        ensures Consistent(states[i])
      {
        assert Entry(i);
      }
      SumMinutesNonNegative(states);
    }
  }

  class Velero {
    const nombreBarco: string
    const numMastiles: int
    const maxTripulantes: int
    var navegando: bool
    var tiempoTotalNavegacionBarco: int
    var velocidad: int
    var patron: string
    var rumbo: string
    var tripulacion: int

    // The class-wide counters this boat updates, and its position among the boats created.
    const reg: Registry
    ghost const id: nat

    /** All of the boat's fields, as a value. */
    function Snapshot(): Boat
      reads this
    {
      Boat(nombreBarco, numMastiles, maxTripulantes, navegando, tiempoTotalNavegacionBarco,
           velocidad, patron, rumbo, tripulacion)
    }

    /** This boat is boat number `id` of its registry. */
    ghost predicate Registered()
      reads this, reg
    {
      id < |reg.fleet| && reg.fleet[id] == this
    }

    /** The assignments of the three-argument constructor, made once its checks have passed. */
    constructor (reg: Registry, nombre: string, mastiles: int, tripulantes: int)
      requires reg.Valid()
      requires ValidConfig(nombre, mastiles, tripulantes)
      modifies reg`numBarcos, reg`fleet, reg`states
      ensures reg.Valid() && Registered() && this.reg == reg
      ensures Snapshot() == NewBoat(Some(nombre), mastiles, tripulantes).value
      ensures reg.fleet == old(reg.fleet) + [this] && reg.states == old(reg.states) + [Snapshot()]
      ensures reg.numBarcos == old(reg.numBarcos) + 1
    {
      nombreBarco := nombre;
      numMastiles := mastiles;
      maxTripulantes := tripulantes;
      navegando := false;
      tiempoTotalNavegacionBarco := 0;
      velocidad := 0;
      patron := PATRON_POR_DEFECTO;
      rumbo := RUMBO_POR_DEFECTO;
      tripulacion := MIN_TRIPULANTES;
      this.reg := reg;
      id := |reg.fleet|;
      new;
      ghost var before := reg.states;
      reg.fleet := reg.fleet + [this];
      reg.states := reg.states + [Snapshot()];
      reg.numBarcos := reg.numBarcos + 1;
      CountSailingAppend(before, Snapshot());
      SumMinutesAppend(before, Snapshot());
      forall i | 0 <= i < |before|
        ensures reg.Entry(i)
      {
        assert old(reg.Entry(i));
      }
    }

    /** The three-argument constructor with its checks: null name, empty name, masts, crew. */
    static method New(reg: Registry, nombre: Option<string>, mastiles: int, tripulantes: int)
      returns (r: Result<Velero>)
      requires reg.Valid()
      modifies reg`numBarcos, reg`fleet, reg`states
      ensures reg.Valid()
      ensures var s := NewBoat(nombre, mastiles, tripulantes);
              if s.Err? then r == Err(s.error) && unchanged(reg)
              else r.Ok? && fresh(r.value) && r.value.reg == reg && r.value.Registered()
                   && r.value.Snapshot() == s.value
                   && reg.fleet == old(reg.fleet) + [r.value] && reg.states == old(reg.states) + [s.value]
                   && reg.numBarcos == old(reg.numBarcos) + 1
    {
      if nombre.None? {
        return Err(NullPointer);
      }
      if nombre.value == "" {
        return Err(IllegalArgument);
      }
      if mastiles < MIN_MASTILES || mastiles > MAX_MASTILES {
        return Err(IllegalArgument);
      }
      if tripulantes < MIN_TRIPULANTES {
        return Err(IllegalArgument);
      }
      var v := new Velero(reg, nombre.value, mastiles, tripulantes);
      r := Ok(v);
    }

    /** The default constructor: "Velero " followed by the next boat number, minimum masts and crew. */
    static method NewDefault(reg: Registry) returns (v: Velero)
      requires reg.Valid()
      modifies reg`numBarcos, reg`fleet, reg`states
      ensures reg.Valid() && fresh(v) && v.reg == reg && v.Registered()
      ensures v.Snapshot() == DefaultBoat(old(reg.numBarcos))
      ensures reg.fleet == old(reg.fleet) + [v] && reg.numBarcos == old(reg.numBarcos) + 1
      ensures reg.states == old(reg.states) + [DefaultBoat(old(reg.numBarcos))]
    {
      var r := New(reg, Some(DefaultName(reg.numBarcos)), MIN_MASTILES, MIN_TRIPULANTES);
      v := r.value;
    }

    /** One step of crearArrayVelero's loop: a new default boat stored at index `i`. */
    static method PutDefault(reg: Registry, a: array<Velero?>, i: nat) returns (v: Velero)
      requires reg.Valid() && i < a.Length
      modifies reg`numBarcos, reg`fleet, reg`states, a
      ensures reg.Valid() && fresh(v) && a[..] == old(a[..])[i := v]
      ensures reg.fleet == old(reg.fleet) + [v] && reg.numBarcos == old(reg.numBarcos) + 1
      ensures reg.states == old(reg.states) + [DefaultBoat(old(reg.numBarcos))]
    {
      v := NewDefault(reg);
      a[i] := v;
    }

    /** crearArrayVelero: between 1 and 10 default boats, created in order and stored in a new array. */
    static method CrearArrayVelero(reg: Registry, cantidad: int) returns (r: Result<array<Velero?>>)
      requires reg.Valid()
      modifies reg`numBarcos, reg`fleet, reg`states
      ensures reg.Valid()
      ensures r.Err? <==> cantidad < MIN_CANTIDAD || cantidad > MAX_CANTIDAD
      ensures r.Err? ==> r.error == IllegalArgument && unchanged(reg)
      ensures r.Ok? ==> fresh(r.value) && r.value.Length == cantidad
                        && reg.numBarcos == old(reg.numBarcos) + cantidad
                        && forall k :: 0 <= k < old(reg.numBarcos) ==> reg.fleet[k] == old(reg.fleet)[k]
      ensures r.Ok? ==>
                forall k :: 0 <= k < cantidad ==>
                  r.value[k] != null && fresh(r.value[k]) && r.value[k] == reg.fleet[old(reg.numBarcos) + k]
                  && r.value[k].Registered() && r.value[k].Snapshot() == DefaultBoat(old(reg.numBarcos) + k)
    {
      if cantidad < MIN_CANTIDAD || cantidad > MAX_CANTIDAD {
        return Err(IllegalArgument);
      }
      ghost var n0: nat := reg.numBarcos;
      ghost var f0 := reg.fleet;
      var a := new Velero?[cantidad];
      for i := 0 to a.Length
        invariant reg.Valid() && reg.numBarcos == n0 + i
        invariant forall k :: 0 <= k < n0 ==> reg.fleet[k] == f0[k]
        invariant forall k :: 0 <= k < i ==> a[k] != null && fresh(a[k]) && a[k] == reg.fleet[n0 + k]
        invariant forall j :: n0 <= j < n0 + i ==> reg.states[j] == DefaultBoat(j)
      {
        var v := PutDefault(reg, a, i);
      }
      forall k | 0 <= k < cantidad
        ensures a[k] != null && a[k].Registered() && a[k].Snapshot() == DefaultBoat(n0 + k)
      {
        reg.MemberValid(n0 + k);
      }
      r := Ok(a);
    }

    /** iniciarNavegacion: the checks of StartVoyage, then the five assignments and one more boat sailing. */
    method IniciarNavegacion(velocidad: int, rumbo: Option<string>, patron: Option<string>, tripulacion: int)
      returns (r: Outcome)
      requires reg.Valid() && Registered()
      modifies this, reg`numBarcosNavegando, reg`states
      ensures reg.Valid() && Registered()
      ensures var s := StartVoyage(old(Snapshot()), velocidad, rumbo, patron, tripulacion);
              r == OutcomeOf(s) && Snapshot() == After(old(Snapshot()), s)
      ensures reg.numBarcosNavegando == old(reg.numBarcosNavegando) + (if r.Pass? then 1 else 0)
    {
      reg.MemberValid(id);
      if velocidad < MIN_VELOCIDAD || velocidad > MAX_VELOCIDAD {
        return Fail(IllegalArgument);
      }
      if navegando {
        return Fail(IllegalState);
      }
      if rumbo.None? {
        return Fail(NullPointer);
      }
      if rumbo.value == "" {
        return Fail(IllegalArgument);
      }
      if patron.None? {
        return Fail(NullPointer);
      }
      if patron.value == "" {
        return Fail(IllegalArgument);
      }
      if tripulacion < MIN_TRIPULANTES || tripulacion > maxTripulantes {
        return Fail(IllegalArgument);
      }
      this.velocidad := velocidad;
      this.rumbo := rumbo.value;
      this.patron := patron.value;
      this.tripulacion := tripulacion;
      navegando := true;
      reg.numBarcosNavegando := reg.numBarcosNavegando + 1;
      forall i | 0 <= i < |reg.fleet| && i != id
        ensures reg.Entry(i)
      {
        assert old(reg.Entry(i));
      }
      Record(old(reg.states));
      r := Pass;
    }

    /** pararNavegacion: the checks of StopVoyage, then the minutes added here and to the fleet total. */
    method PararNavegacion(tiempoNavegando: int) returns (r: Outcome)
      requires reg.Valid() && Registered()
      modifies this, reg`numBarcosNavegando, reg`tiempoTotalNavegacion, reg`states
      ensures reg.Valid() && Registered()
      ensures var s := StopVoyage(old(Snapshot()), tiempoNavegando);
              r == OutcomeOf(s) && Snapshot() == After(old(Snapshot()), s)
      ensures reg.numBarcosNavegando == old(reg.numBarcosNavegando) - (if r.Pass? then 1 else 0)
      ensures reg.tiempoTotalNavegacion
              == old(reg.tiempoTotalNavegacion) + (if r.Pass? then tiempoNavegando else 0)
    {
      reg.MemberValid(id);
      if !navegando {
        return Fail(IllegalState);
      }
      if tiempoNavegando <= 0 {
        return Fail(IllegalArgument);
      }
      tiempoTotalNavegacionBarco := tiempoTotalNavegacionBarco + tiempoNavegando;
      reg.tiempoTotalNavegacion := reg.tiempoTotalNavegacion + tiempoNavegando;
      reg.numBarcosNavegando := reg.numBarcosNavegando - 1;
      navegando := false;
      velocidad := 0;
      rumbo := RUMBO_POR_DEFECTO;
      patron := PATRON_POR_DEFECTO;
      tripulacion := MIN_TRIPULANTES;
      forall i | 0 <= i < |reg.fleet| && i != id
        ensures reg.Entry(i)
      {
        assert old(reg.Entry(i));
      }
      Record(old(reg.states));
      r := Pass;
    }

    /** setRumbo: the checks of ChangeHeading, then the heading alone; no counter changes. */
    method SetRumbo(rumbo: Option<string>) returns (r: Outcome)
      requires reg.Valid() && Registered()
      modifies this, reg`states
      ensures reg.Valid() && Registered()
      ensures var s := ChangeHeading(old(Snapshot()), rumbo);
              r == OutcomeOf(s) && Snapshot() == After(old(Snapshot()), s)
    {
      reg.MemberValid(id);
      if !navegando {
        return Fail(IllegalState);
      }
      if rumbo.None? {
        return Fail(NullPointer);
      }
      if rumbo.value == "" || (rumbo.value != CENIDA && rumbo.value != EMPOPADA) {
        return Fail(IllegalArgument);
      }
      if this.rumbo == rumbo.value {
        return Fail(IllegalState);
      }
      this.rumbo := rumbo.value;
      forall i | 0 <= i < |reg.fleet| && i != id
        ensures reg.Entry(i)
      {
        assert old(reg.Entry(i));
      }
      Record(old(reg.states));
      r := Pass;
    }

    /**
     * Ghost bookkeeping after a successful transition: records this boat's new state in the
     * registry and shows that the counters still agree with the states of all the boats.
     */
    ghost method Record(before: seq<Boat>)
      requires Registered() && |reg.fleet| == |reg.states| == reg.numBarcos
      requires forall i :: 0 <= i < |reg.fleet| && i != id ==> reg.Entry(i)
      requires reg.states == before && Consistent(Snapshot())
      requires reg.numBarcosNavegando == CountSailing(before) - (if before[id].navegando then 1 else 0)
                                         + (if navegando then 1 else 0)
      requires reg.tiempoTotalNavegacion == SumMinutes(before) - before[id].tiempoTotalNavegacionBarco
                                            + tiempoTotalNavegacionBarco
      modifies reg`states
      ensures reg.states == before[id := Snapshot()]
      ensures reg.Valid()
    {
      reg.states := reg.states[id := Snapshot()];
      CountSailingUpdate(before, id, Snapshot());
      SumMinutesUpdate(before, id, Snapshot());
      forall i | 0 <= i < |reg.fleet|
        ensures reg.Entry(i)
      {
        if i != id {
          assert old(reg.Entry(i));
        }
      }
    }

    /** iniciarRegata: both boats sailing, same heading, same masts; the faster one wins. */
    function IniciarRegata(otroBarco: Velero?): (r: Result<RaceOutcome>)
      reads this, otroBarco
      ensures r == Err(NullPointer) <==> otroBarco == null
      ensures otroBarco != null ==>
                (r == Err(IllegalState) <==>
                   !navegando || !otroBarco.navegando || rumbo != otroBarco.rumbo
                   || numMastiles != otroBarco.numMastiles)
      ensures r != Err(IllegalArgument)
      ensures r.Ok? ==> otroBarco != null
                        && (r.value == ThisWins <==> velocidad > otroBarco.velocidad)
                        && (r.value == OtherWins <==> velocidad < otroBarco.velocidad)
                        && (r.value == Tie <==> velocidad == otroBarco.velocidad)
    {
      if otroBarco == null then Err(NullPointer)
      else if !navegando then Err(IllegalState)
      else if !otroBarco.navegando then Err(IllegalState)
      else if rumbo != otroBarco.rumbo then Err(IllegalState)
      else if numMastiles != otroBarco.numMastiles then Err(IllegalState)
      else if velocidad > otroBarco.velocidad then Ok(ThisWins)
      else if velocidad < otroBarco.velocidad then Ok(OtherWins)
      else Ok(Tie)
    }
  }

  /** A race read from the other side has the mirrored outcome, and the same exceptions. */
  lemma RaceSymmetric(a: Velero, b: Velero)
    ensures a.IniciarRegata(b) == Ok(ThisWins) <==> b.IniciarRegata(a) == Ok(OtherWins)
    ensures a.IniciarRegata(b) == Ok(Tie) <==> b.IniciarRegata(a) == Ok(Tie)
    ensures a.IniciarRegata(b).Err? <==> b.IniciarRegata(a).Err?
  {
  }
}
