/**
 * The weekly schedule record (`EscalaSemanal`) that both schedule screens
 * share: a collaborator, the week it belongs to, and a planned entry and
 * exit per day. The screens show and total only Monday to Friday; a row
 * loaded from the `escalas` table also carries Saturday and Sunday, so the
 * record keeps them to state that they are never read.
 */
module Escalas {
  import opened Options
  import opened TimeText

  /** The five keys of `diasSemana`: segunda, terca, quarta, quinta, sexta. */
  datatype Dia = Segunda | Terca | Quarta | Quinta | Sexta

  const DiasSemana: seq<Dia> := [Segunda, Terca, Quarta, Quinta, Sexta]

  /** `entrada` / `saida` of a field key `${dia}_entrada` / `${dia}_saida`. */
  datatype Lado = Entrada | Saida

  /** A field key such as `segunda_entrada`. */
  datatype Campo = Campo(dia: Dia, lado: Lado)

  /** One day's planned times; `None` is a field that is null in the row or absent from the object. */
  datatype Turno = Turno(entrada: Option<string>, saida: Option<string>)

  datatype EscalaSemanal = EscalaSemanal(
    colaborador_id: string,
    semana: string,
    segunda: Turno,
    terca: Turno,
    quarta: Turno,
    quinta: Turno,
    sexta: Turno,
    sabado: Turno,
    domingo: Turno)

  function TurnoDe(e: EscalaSemanal, d: Dia): Turno {
    match d
    case Segunda => e.segunda
    case Terca => e.terca
    case Quarta => e.quarta
    case Quinta => e.quinta
    case Sexta => e.sexta
  }

  function ComTurno(e: EscalaSemanal, d: Dia, t: Turno): EscalaSemanal {
    match d
    case Segunda => e.(segunda := t)
    case Terca => e.(terca := t)
    case Quarta => e.(quarta := t)
    case Quinta => e.(quinta := t)
    case Sexta => e.(sexta := t)
  }

  /** `escala[campo]`. */
  function Ler(e: EscalaSemanal, c: Campo): Option<string> {
    var t := TurnoDe(e, c.dia);
    if c.lado == Entrada then t.entrada else t.saida
  }

  /** `{ ...escala, [campo]: horario }`: the named field is set and every other field is kept. */
  function Gravar(e: EscalaSemanal, c: Campo, horario: string): (r: EscalaSemanal)
    ensures Ler(r, c) == Some(horario)
    ensures forall c' :: c' != c ==> Ler(r, c') == Ler(e, c')
    ensures r.colaborador_id == e.colaborador_id && r.semana == e.semana
    ensures r.sabado == e.sabado && r.domingo == e.domingo
  {
    var t := TurnoDe(e, c.dia);
    ComTurno(e, c.dia, if c.lado == Entrada then t.(entrada := Some(horario)) else t.(saida := Some(horario)))
  }

  /** `value || ''`. */
  function OrEmpty(v: Option<string>): string {
    if v.Some? then v.value else ""
  }

  predicate TurnoBemFormado(t: Turno) {
    IsTimeField(OrEmpty(t.entrada)) && IsTimeField(OrEmpty(t.saida))
  }

  /** Every weekday field holds nothing, the empty string or a time. */
  predicate BemFormada(e: EscalaSemanal) {
    && TurnoBemFormado(e.segunda) && TurnoBemFormado(e.terca) && TurnoBemFormado(e.quarta)
    && TurnoBemFormado(e.quinta) && TurnoBemFormado(e.sexta)
  }

  lemma TurnoDeBemFormado(e: EscalaSemanal, d: Dia)
    requires BemFormada(e)
    ensures TurnoBemFormado(TurnoDe(e, d))
  {
  }

  lemma ComTurnoBemFormada(e: EscalaSemanal, d: Dia, t: Turno)
    requires BemFormada(e) && TurnoBemFormado(t)
    ensures BemFormada(ComTurno(e, d, t))
  {
  }

  /** Writing a time, or the empty string, into a field keeps the schedule well formed. */
  lemma GravarBemFormada(e: EscalaSemanal, c: Campo, horario: string)
    requires BemFormada(e) && IsTimeField(horario)
    ensures BemFormada(Gravar(e, c, horario))
  {
    var t := TurnoDe(e, c.dia);
    TurnoDeBemFormado(e, c.dia);
    var t' := if c.lado == Entrada then t.(entrada := Some(horario)) else t.(saida := Some(horario));
    assert TurnoBemFormado(t');
    ComTurnoBemFormada(e, c.dia, t');
  }

  /** The blank schedule both screens build for a collaborator without a row for the week:
      every weekday field is the empty string; Saturday and Sunday are absent. */
  function EscalaVazia(colaborador_id: string, semana: string): (r: EscalaSemanal)
    ensures BemFormada(r)
    ensures forall c: Campo :: Ler(r, c) == Some("")
  {
    var vazio := Turno(Some(""), Some(""));
    EscalaSemanal(colaborador_id, semana, vazio, vazio, vazio, vazio, vazio, Turno(None, None), Turno(None, None))
  }
}
