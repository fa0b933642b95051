/**
 * The collaborator's read-only view of their week (`EscalasVisualizacao`):
 * the stored schedule or, when the week has no row, the blank one; the
 * planned duration of each worked day as "XhYYmin"; "Folga" for a day
 * without both times; and the week's total, "00:00" while nothing is
 * loaded. Its `calcularHorasDia` is character for character the schedule
 * editor's; here it is written out as the screen's own method and proved
 * equal to `EscalasRecuperacao.CalcularHorasDia`, whose week sum
 * (`MinutosSemana`) specifies both totals.
 */
module EscalasVisualizacao {
  import opened Options
  import opened JsText
  import opened JsMath
  import opened TimeText
  import opened Clock
  import opened Escalas
  import EscalasRecuperacao

  /** `escalaData || { ...blank week... }`: the row found for the week, or the blank schedule. */
  function EscalaCarregada(encontrada: Option<EscalaSemanal>, colaboradorId: string, semana: string)
    : (r: EscalaSemanal)
    ensures encontrada.Some? ==> r == encontrada.value
    ensures encontrada.None? ==> r == EscalaVazia(colaboradorId, semana)
    ensures encontrada.None? ==> r.colaborador_id == colaboradorId && r.semana == semana
    ensures encontrada.None? ==> BemFormada(r) && EscalasRecuperacao.MinutosSemana(r) == 0
  {
    match encontrada
    case Some(e) => e
    case None =>
      var r := EscalaVazia(colaboradorId, semana);
      EscalasRecuperacao.MinutosSemanaCincoDias(r);
      r
  }

  /** This screen's `calcularHorasDia`, with its one reassignment of `totalMinutos`; it gives
      the schedule editor's day minutes on every input. */
  method CalcularHorasDia(entrada: string, saida: string) returns (m: nat)
    requires IsTimeField(entrada) && IsTimeField(saida)
    ensures m == EscalasRecuperacao.CalcularHorasDia(entrada, saida)
  {
    if entrada == "" || saida == "" {
      return 0;
    }
    var totalMinutos := Minutes(saida) - Minutes(entrada);
    if totalMinutos > 360 {
      totalMinutos := totalMinutos - 60;
    }
    m := Max(0, totalMinutos);
  }

  /** `calcularTotalHoras`: "00:00" while no schedule is loaded, else the five weekdays of
      the loaded week added up in a loop and shown as "HH:MM". */
  method CalcularTotalHoras(escala: Option<EscalaSemanal>) returns (total: string)
    requires escala.Some? ==> BemFormada(escala.value)
    ensures escala.None? ==> total == "00:00"
    ensures escala.Some? ==> total == ClockString(EscalasRecuperacao.MinutosSemana(escala.value))
    ensures escala.Some? ==> IsClock(total) && ClockMinutes(total) == EscalasRecuperacao.MinutosSemana(escala.value)
  {
    if escala.None? {
      return "00:00";
    }
    var e := escala.value;
    var totalMinutos := 0;
    for i := 0 to |DiasSemana|
      invariant totalMinutos == EscalasRecuperacao.SomaDias(e, DiasSemana[..i])
    {
      var t := TurnoDe(e, DiasSemana[i]);
      var dia := CalcularHorasDia(OrEmpty(t.entrada), OrEmpty(t.saida));
      totalMinutos := totalMinutos + dia;
      assert DiasSemana[..i + 1][..i] == DiasSemana[..i];
    }
    assert DiasSemana[..|DiasSemana|] == DiasSemana;
    total := ClockString(totalMinutos);
    ClockRoundTrip(totalMinutos);
  }

  /** A blank week totals "00:00". */
  lemma TotalEscalaVazia(colaboradorId: string, semana: string)
    ensures BemFormada(EscalaVazia(colaboradorId, semana))
    ensures ClockString(EscalasRecuperacao.MinutosSemana(EscalaVazia(colaboradorId, semana))) == "00:00"
  {
    var r := EscalaCarregada(None, colaboradorId, semana);
    assert EscalasRecuperacao.MinutosSemana(r) == 0;
    ClockStringZero();
  }

  /** `{Math.floor(m / 60)}h{String(m % 60).padStart(2, '0')}min`. */
  function DuracaoDia(m: nat): (s: string)
    ensures |s| >= 7
  {
    var h, mm := IntToString(m / 60), Pad2(m % 60);
    assert |h| >= 1 && |mm| >= 2;
    h + "h" + mm + "min"
  }

  /** A duration text: hour digits, "h", two minute digits below sixty, "min". */
  predicate IsDuracao(s: string) {
    && |s| >= 7
    && var k := |s| - 6;
    && s[k] == 'h' && s[k + 3..] == "min"
    && AllDigits(s[..k]) && AllDigits(s[k + 1..k + 3])
    && ParseDigits(s[k + 1..k + 3]) < 60
  }

  /** The minutes a duration text stands for: 60 * hours + minutes. */
  function DuracaoMinutos(s: string): nat
    requires IsDuracao(s)
  {
    var k := |s| - 6;
    60 * ParseDigits(s[..k]) + ParseDigits(s[k + 1..k + 3])
  }

  /** The duration text of a day is well formed and reads back as that day's minutes. */
  lemma DuracaoDiaLegivel(m: nat)
    ensures IsDuracao(DuracaoDia(m)) && DuracaoMinutos(DuracaoDia(m)) == m
  {
    var horas, minutos := m / 60, m % 60;
    Pad2Nat(minutos);
    ParseNatToString(horas);
    DuracaoPartes(IntToString(horas), Pad2(minutos));
  }

  /** Hour digits `h` and two minute digits `mm` joined as `h` "h" `mm` "min" form a duration
      text worth `60 * h + mm`. */
  lemma DuracaoPartes(h: string, mm: string)
    requires |h| >= 1 && AllDigits(h)
    requires |mm| == 2 && AllDigits(mm) && ParseDigits(mm) < 60
    ensures IsDuracao(h + "h" + mm + "min")
    ensures DuracaoMinutos(h + "h" + mm + "min") == 60 * ParseDigits(h) + ParseDigits(mm)
  {
    var s, k := h + "h" + mm + "min", |h|;
    assert |s| - 6 == k;
    assert s[..k] == h && s[k] == 'h';
    assert s[k + 1..k + 3] == mm && s[k + 3..] == "min";
    assert IsDuracao(s);
    assert ParseDigits(s[..k]) == ParseDigits(h) && ParseDigits(s[k + 1..k + 3]) == ParseDigits(mm);
  }

  /** The content of one day's cell: the two times and the duration when both are filled in,
      "Folga" otherwise. */
  datatype Celula = Trabalho(entrada: string, saida: string, duracao: string) | Folga

  function CelulaDia(t: Turno): (c: Celula)
    requires TurnoBemFormado(t)
    ensures c.Folga? <==> OrEmpty(t.entrada) == "" || OrEmpty(t.saida) == ""
    ensures c.Trabalho? ==> c.entrada == t.entrada.value && c.saida == t.saida.value
    ensures c.Trabalho? ==> c.duracao == DuracaoDia(EscalasRecuperacao.CalcularHorasDia(c.entrada, c.saida))
  {
    var entrada, saida := OrEmpty(t.entrada), OrEmpty(t.saida);
    if entrada != "" && saida != "" then Trabalho(entrada, saida, DuracaoDia(EscalasRecuperacao.CalcularHorasDia(entrada, saida)))
    else Folga
  }

  /** The view and the editor's PDF agree on which days are days off. */
  lemma CelulaConcordaComPdf(t: Turno)
    requires TurnoBemFormado(t)
    ensures CelulaDia(t).Folga? <==> EscalasRecuperacao.CelulaDia(t) == "Folga"
  {
  }
}
