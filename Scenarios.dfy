/**
 * Two client call sequences of the sailing-school classes, proved from the contracts of Escuela alone:
 * a voyage and a race between two boats, and the batch factory at and beyond its bounds.
 */
module Scenarios {
  import opened Outcomes
  import opened VeleroState
  import opened Escuela

  /**
   * "Alpha" (2 masts, 4 crew) sets off running at 10 knots; a race against an identical boat
   * still in port fails; "Beta" sets off running at 14 knots and wins the race; Alpha then
   * comes back after 45 minutes.
   */
  method AlphaBeta()
    returns (contraPuerto: Result<RaceOutcome>, carrera: Result<RaceOutcome>, llegada: Outcome,
             minutosAlpha: int, minutosFlota: int, navegandoFlota: int)
    ensures contraPuerto == Err(IllegalState)
    ensures carrera == Ok(OtherWins)
    ensures llegada == Pass
    ensures minutosAlpha == 45 && minutosFlota == 45 && navegandoFlota == 1
  {
    var reg := new Registry();
    var r := Velero.New(reg, Some("Alpha"), 2, 4);
    var alpha := r.value;
    var salida := alpha.IniciarNavegacion(10, Some(EMPOPADA), Some("Jane"), 2);
    assert salida == Pass;

    r := Velero.New(reg, Some("Alpha"), 2, 4);
    var gemelo := r.value;
    contraPuerto := alpha.IniciarRegata(gemelo);

    r := Velero.New(reg, Some("Beta"), 2, 4);
    var beta := r.value;
    reg.MemberValid(alpha.id);
    salida := beta.IniciarNavegacion(14, Some(EMPOPADA), Some("Ana"), 3);
    assert salida == Pass;
    reg.MemberValid(alpha.id);
    carrera := alpha.IniciarRegata(beta);

    llegada := alpha.PararNavegacion(45);
    minutosAlpha := alpha.tiempoTotalNavegacionBarco;
    minutosFlota := reg.tiempoTotalNavegacion;
    navegandoFlota := reg.numBarcosNavegando;
  }

  /** The batch factory refuses 0 and 11 boats and makes 10 boats with distinct default names. */
  method Batches() returns (cero: bool, once: bool, diez: array<Velero?>, creados: int)
    ensures cero && once
    ensures diez.Length == 10 && creados == 10
    ensures forall i, j :: 0 <= i < j < diez.Length ==>
              diez[i] != null && diez[j] != null && diez[i].nombreBarco != diez[j].nombreBarco
  {
    var reg := new Registry();
    var r := Velero.CrearArrayVelero(reg, 0);
    cero := r == Err(IllegalArgument);
    r := Velero.CrearArrayVelero(reg, 11);
    once := r == Err(IllegalArgument);
    r := Velero.CrearArrayVelero(reg, 10);
    diez := r.value;
    creados := reg.numBarcos;
    DefaultNamesDistinct(0, 10);
    forall i, j | 0 <= i < j < diez.Length
      ensures diez[i] != null && diez[j] != null && diez[i].nombreBarco != diez[j].nombreBarco
    {
      assert diez[i].Snapshot() == DefaultBoat(i);
      assert diez[j].Snapshot() == DefaultBoat(j);
    }
  }
}
