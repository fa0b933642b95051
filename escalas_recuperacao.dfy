/**
 * The schedule editor (`EscalasRecuperacao`): planned minutes per day with
 * "one hour of lunch off for days over six hours", the Monday-to-Friday
 * total as "HH:MM", editing one field of one collaborator's schedule, the
 * list of schedules shown for the week, the PDF day cell and the row
 * written back on save.
 */
module EscalasRecuperacao {
  import opened Options
  import opened JsMath
  import opened TimeText
  import opened Clock
  import opened Escalas
  import opened Cadastro

  /** `calcularHorasDia`: planned minutes between entry and exit, less an hour of
      lunch only when the span is over 360 minutes, never below zero. */
  function CalcularHorasDia(entrada: string, saida: string): (m: nat)
    requires IsTimeField(entrada) && IsTimeField(saida)
    ensures entrada == "" || saida == "" ==> m == 0
    ensures entrada != "" && saida != "" ==>
      var bruto := Minutes(saida) - Minutes(entrada);
      && (m == bruto - 60 <==> bruto > 360)
      && (m == Max(0, bruto) <==> bruto <= 360)
  {
    if entrada == "" || saida == "" then 0
    else
      var totalMinutos := Minutes(saida) - Minutes(entrada);
      var descontado := if totalMinutos > 360 then totalMinutos - 60 else totalMinutos;
      Max(0, descontado)
  }

  /** The minutes one weekday of a schedule contributes (`escala[...] || ''` for each field). */
  function MinutosDoDia(e: EscalaSemanal, d: Dia): nat
    requires BemFormada(e)
  {
    var t := TurnoDe(e, d);
    CalcularHorasDia(OrEmpty(t.entrada), OrEmpty(t.saida))
  }

  /** The running total after the given days, in order. */
  function SomaDias(e: EscalaSemanal, dias: seq<Dia>): nat
    requires BemFormada(e)
  {
    if dias == [] then 0 else SomaDias(e, dias[..|dias| - 1]) + MinutosDoDia(e, dias[|dias| - 1])
  }

  /** The week's planned minutes: the five days of `diasSemana`. */
  function MinutosSemana(e: EscalaSemanal): nat
    requires BemFormada(e)
  {
    SomaDias(e, DiasSemana)
  }

  lemma MinutosSemanaCincoDias(e: EscalaSemanal)
    requires BemFormada(e)
    ensures MinutosSemana(e) == MinutosDoDia(e, Segunda) + MinutosDoDia(e, Terca) + MinutosDoDia(e, Quarta)
                                + MinutosDoDia(e, Quinta) + MinutosDoDia(e, Sexta)
  {
    var d := DiasSemana;
    assert d[..5][..4] == d[..4] && d[..4][..3] == d[..3] && d[..3][..2] == d[..2];
    assert d[..2][..1] == d[..1] && d[..1][..0] == [] && d[..5] == d;
    assert SomaDias(e, d[..1]) == MinutosDoDia(e, Segunda);
    assert SomaDias(e, d[..2]) == SomaDias(e, d[..1]) + MinutosDoDia(e, Terca);
    assert SomaDias(e, d[..3]) == SomaDias(e, d[..2]) + MinutosDoDia(e, Quarta);
    assert SomaDias(e, d[..4]) == SomaDias(e, d[..3]) + MinutosDoDia(e, Quinta);
    assert SomaDias(e, d) == SomaDias(e, d[..4]) + MinutosDoDia(e, Sexta);
  }

  /** Saturday and Sunday never enter the total, whatever they hold. */
  lemma FimDeSemanaIgnorado(e: EscalaSemanal, sabado: Turno, domingo: Turno)
    requires BemFormada(e)
    ensures BemFormada(e.(sabado := sabado, domingo := domingo))
    ensures MinutosSemana(e.(sabado := sabado, domingo := domingo)) == MinutosSemana(e)
  {
    var e' := e.(sabado := sabado, domingo := domingo);
    MinutosSemanaCincoDias(e);
    MinutosSemanaCincoDias(e');
  }

  /** `calcularTotalHoras`: adds up the five weekdays in a loop and renders the sum as "HH:MM". */
  method CalcularTotalHoras(escala: EscalaSemanal) returns (total: string)
    requires BemFormada(escala)
    ensures total == ClockString(MinutosSemana(escala))
    ensures IsClock(total) && ClockMinutes(total) == MinutosSemana(escala)
  {
    var totalMinutos := 0;
    for i := 0 to |DiasSemana|
      invariant totalMinutos == SomaDias(escala, DiasSemana[..i])
    {
      var t := TurnoDe(escala, DiasSemana[i]);
      totalMinutos := totalMinutos + CalcularHorasDia(OrEmpty(t.entrada), OrEmpty(t.saida));
      assert DiasSemana[..i + 1][..i] == DiasSemana[..i];
    }
    assert DiasSemana[..|DiasSemana|] == DiasSemana;
    total := ClockString(totalMinutos);
    ClockRoundTrip(totalMinutos);
  }

  /** `atualizarHorario`: every schedule of the collaborator gets the new time in the named
      field and keeps all other fields; every other schedule is kept as it is. */
  function AtualizarHorario(escalas: seq<EscalaSemanal>, colaboradorId: string, campo: Campo, horario: string)
    : (r: seq<EscalaSemanal>)
    ensures |r| == |escalas|
    ensures forall i :: 0 <= i < |r| && escalas[i].colaborador_id != colaboradorId ==> r[i] == escalas[i]
    ensures forall i :: 0 <= i < |r| && escalas[i].colaborador_id == colaboradorId ==>
      && Ler(r[i], campo) == Some(horario)
      && (forall c :: c != campo ==> Ler(r[i], c) == Ler(escalas[i], c))
      && r[i].colaborador_id == colaboradorId && r[i].semana == escalas[i].semana
      && r[i].sabado == escalas[i].sabado && r[i].domingo == escalas[i].domingo
  {
    seq(|escalas|, i requires 0 <= i < |escalas| =>
      if escalas[i].colaborador_id == colaboradorId then Gravar(escalas[i], campo, horario) else escalas[i])
  }

  /** An edit from a time input keeps the schedule well formed. */
  lemma AtualizarBemFormada(escalas: seq<EscalaSemanal>, colaboradorId: string, campo: Campo, horario: string, i: nat)
    requires IsTimeField(horario)
    requires i < |escalas| && BemFormada(escalas[i])
    ensures BemFormada(AtualizarHorario(escalas, colaboradorId, campo, horario)[i])
  {
    if escalas[i].colaborador_id == colaboradorId {
      GravarBemFormada(escalas[i], campo, horario);
    }
  }

  /** The position of the first schedule of the collaborator, or `|escalas|` when there is none. */
  function IndiceDe(escalas: seq<EscalaSemanal>, colaboradorId: string): (k: nat)
    ensures k <= |escalas|
    ensures forall j :: 0 <= j < k ==> escalas[j].colaborador_id != colaboradorId
    ensures k < |escalas| ==> escalas[k].colaborador_id == colaboradorId
  {
    if escalas == [] then 0
    else if escalas[0].colaborador_id == colaboradorId then 0
    else 1 + IndiceDe(escalas[1..], colaboradorId)
  }

  /** `escalas.find(e => e.colaborador_id === colaboradorId)`. */
  function Encontrar(escalas: seq<EscalaSemanal>, colaboradorId: string): Option<EscalaSemanal> {
    var k := IndiceDe(escalas, colaboradorId);
    if k < |escalas| then Some(escalas[k]) else None
  }

  /** `escalasCompletas`: one schedule per collaborator, in collaborator order; the week's
      stored schedule when there is one, the blank schedule otherwise. */
  function EscalasCompletas(colaboradores: seq<Colaborador>, existentes: seq<EscalaSemanal>, semana: string)
    : (r: seq<EscalaSemanal>)
    ensures |r| == |colaboradores|
    ensures forall i :: 0 <= i < |r| ==> r[i].colaborador_id == colaboradores[i].id
    ensures forall i :: 0 <= i < |r| ==>
      var k := IndiceDe(existentes, colaboradores[i].id);
      && (k < |existentes| ==> r[i] == existentes[k])
      && (k == |existentes| ==> r[i] == EscalaVazia(colaboradores[i].id, semana))
  {
    seq(|colaboradores|, i requires 0 <= i < |colaboradores| =>
      match Encontrar(existentes, colaboradores[i].id)
      case Some(e) => e
      case None => EscalaVazia(colaboradores[i].id, semana))
  }

  /** The PDF cell of one day: "entrada - saida" when both are filled in, "Folga" otherwise. */
  function CelulaDia(t: Turno): (s: string)
    ensures s == "Folga" <==> OrEmpty(t.entrada) == "" || OrEmpty(t.saida) == ""
    ensures s != "Folga" ==> s == t.entrada.value + " - " + t.saida.value
  {
    var entrada, saida := OrEmpty(t.entrada), OrEmpty(t.saida);
    if entrada != "" && saida != "" then
      var s := entrada + " - " + saida;
      assert s[|entrada|] == ' ';
      s
    else "Folga"
  }

  /** `value || null`, as the save writes each weekday field. */
  function OrNull(v: Option<string>): (r: Option<string>)
    ensures r == None <==> OrEmpty(v) == ""
    ensures r != None ==> r == v
  {
    if OrEmpty(v) == "" then None else v
  }

  /** The row `salvarEscalas` upserts: empty weekday fields become null, and Saturday and
      Sunday are always null. */
  function ParaSalvar(e: EscalaSemanal): (r: EscalaSemanal)
    ensures r.colaborador_id == e.colaborador_id && r.semana == e.semana
    ensures forall d :: TurnoDe(r, d).entrada == OrNull(TurnoDe(e, d).entrada)
    ensures forall d :: TurnoDe(r, d).saida == OrNull(TurnoDe(e, d).saida)
    ensures r.sabado == Turno(None, None) && r.domingo == Turno(None, None)
  {
    var r := EscalaSemanal(e.colaborador_id, e.semana, TurnoParaSalvar(e.segunda), TurnoParaSalvar(e.terca),
                           TurnoParaSalvar(e.quarta), TurnoParaSalvar(e.quinta), TurnoParaSalvar(e.sexta),
                           Turno(None, None), Turno(None, None));
    assert forall d :: TurnoDe(r, d) == TurnoParaSalvar(TurnoDe(e, d));
    r
  }

  function TurnoParaSalvar(t: Turno): Turno {
    Turno(OrNull(t.entrada), OrNull(t.saida))
  }

  /** A day's fields read the same after the empty-to-null mapping. */
  lemma TurnoSalvoIgual(t: Turno)
    requires TurnoBemFormado(t)
    ensures TurnoBemFormado(TurnoParaSalvar(t))
    ensures OrEmpty(TurnoParaSalvar(t).entrada) == OrEmpty(t.entrada)
    ensures OrEmpty(TurnoParaSalvar(t).saida) == OrEmpty(t.saida)
  {
  }

  /** Saving and loading back does not change the week's total. */
  lemma SalvarPreservaTotal(e: EscalaSemanal)
    requires BemFormada(e)
    ensures BemFormada(ParaSalvar(e))
    ensures MinutosSemana(ParaSalvar(e)) == MinutosSemana(e)
  {
    TurnoSalvoIgual(e.segunda);
    TurnoSalvoIgual(e.terca);
    TurnoSalvoIgual(e.quarta);
    TurnoSalvoIgual(e.quinta);
    TurnoSalvoIgual(e.sexta);
    var r := ParaSalvar(e);
    assert BemFormada(r);
    MinutosSemanaCincoDias(e);
    MinutosSemanaCincoDias(r);
  }
}
