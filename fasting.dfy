// determinar_jejum: fasting hours from the surgery and anesthesia types.
module Fasting {
  import opened Questionnaire

  datatype Jejum = Jejum(solidos: nat, liquidosClaros: nat)

  /** Solids default to 8 hours, abdominal surgery raises them to 10, simple
      ambulatory surgery under local anesthesia lowers them to 6; clear
      liquids are 2 hours under general or regional anesthesia, else 1. */
  function DeterminarJejum(tipoCirurgia: TipoCirurgia, tipoAnestesia: TipoAnestesia): (j: Jejum)
    ensures j.solidos == 6 || j.solidos == 8 || j.solidos == 10
    ensures j.liquidosClaros == 1 || j.liquidosClaros == 2
    ensures j.liquidosClaros == 2 <==> tipoAnestesia == Geral || tipoAnestesia == Regional
    ensures j.solidos == 10 <==> tipoCirurgia == CirurgiaAbdominal
    ensures j.solidos == 6 <==> tipoCirurgia == CirurgiaAmbulatorialSimples && tipoAnestesia == Local
    ensures j.liquidosClaros < j.solidos
  {
    var liquidos := if tipoAnestesia == Geral || tipoAnestesia == Regional then 2 else 1;
    var solidos :=
      if tipoCirurgia == CirurgiaAbdominal then 10
      else if tipoCirurgia == CirurgiaAmbulatorialSimples && tipoAnestesia == Local then 6
      else 8;
    Jejum(solidos, liquidos)
  }

  /** Outside simple ambulatory surgery, the anesthesia type does not affect solids. */
  lemma SolidosSoPelaCirurgia(tc: TipoCirurgia, a1: TipoAnestesia, a2: TipoAnestesia)
    requires tc != CirurgiaAmbulatorialSimples
    ensures DeterminarJejum(tc, a1).solidos == DeterminarJejum(tc, a2).solidos
  {
  }

  /** Abdominal surgery under general anesthesia: 10 hours solids, 2 hours liquids. */
  lemma CasoAbdominalGeral()
    ensures DeterminarJejum(CirurgiaAbdominal, Geral) == Jejum(10, 2)
  {
  }

  /** Simple ambulatory surgery under local anesthesia: 6 hours solids, 1 hour liquids. */
  lemma CasoAmbulatorialLocal()
    ensures DeterminarJejum(CirurgiaAmbulatorialSimples, Local) == Jejum(6, 1)
  {
  }
}
