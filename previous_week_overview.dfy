/**
 * The administrator's summary of the previous week (`PreviousWeekOverview`):
 * per collaborator, the sum over their attendance records of the stored net
 * hours, or, where none is stored, hours computed from the entry and exit
 * timestamps with the part of the lunch window 11:59-12:59 that was worked
 * taken off; the list is sorted by that total, largest first.
 *
 * Timestamps are local instants counted in whole minutes; the hour of the
 * day is the instant modulo a day.
 */
module PreviousWeekOverview {
  import opened Options
  import opened JsMath
  import opened Seqs
  import opened Sorting
  import opened Cadastro

  const MinutosPorDia := 1440
  /** 11:59 and 12:59 as minutes of the day. */
  const InicioAlmoco := 719
  const FimAlmoco := 779

  type MinutoDoDia = m: int | 0 <= m < MinutosPorDia

  /** A timestamp, `new Date(s)`, in minutes. */
  datatype Instante = Instante(minutos: int)

  /** `getHours() * 60 + getMinutes()`. */
  function HoraDoDia(i: Instante): MinutoDoDia {
    i.minutos % MinutosPorDia
  }

  /** The minutes of the lunch window between the two hours of the day, when they are in order. */
  function Sobreposicao(horaEntrada: MinutoDoDia, horaSaida: MinutoDoDia): (r: int)
    ensures 0 <= r <= FimAlmoco - InicioAlmoco
    ensures horaEntrada <= InicioAlmoco && FimAlmoco <= horaSaida ==> r == FimAlmoco - InicioAlmoco
  {
    Max(0, Min(horaSaida, FimAlmoco) - Max(horaEntrada, InicioAlmoco))
  }

  /** `calcularHorasEstagio` before rounding, in minutes: the whole lunch hour off when the
      record spans the window, the part of it worked when it overlaps, nothing otherwise. */
  function MinutosEstagio(entrada: Instante, saida: Instante): (m: int)
    ensures saida.minutos - entrada.minutos - 60 <= m
    ensures entrada.minutos <= saida.minutos ==> 0 <= m <= saida.minutos - entrada.minutos
  {
    var diferenca := saida.minutos - entrada.minutos;
    var horaEntrada, horaSaida := HoraDoDia(entrada), HoraDoDia(saida);
    if horaEntrada <= InicioAlmoco && horaSaida >= FimAlmoco then
      Max(0, diferenca - 60)
    else if horaEntrada < FimAlmoco && horaSaida > InicioAlmoco then
      Max(0, diferenca - Sobreposicao(horaEntrada, horaSaida))
    else
      diferenca
  }

  /** How many minutes of the day from `a` up to `b` fall inside the lunch window,
      counted one minute at a time. */
  function MinutosDeAlmoco(a: int, b: int): nat
    decreases b - a
  {
    if b <= a then 0
    else MinutosDeAlmoco(a, b - 1) + (if InicioAlmoco <= b - 1 < FimAlmoco then 1 else 0)
  }

  lemma {:induction false} MinutosDeAlmocoIntervalo(a: int, b: int)
    ensures MinutosDeAlmoco(a, b) == Max(0, Min(b, FimAlmoco) - Max(a, InicioAlmoco))
    decreases b - a
  {
    if b > a {
      MinutosDeAlmocoIntervalo(a, b - 1);
    }
  }

  /** The three branches in terms of the lunch-window minutes inside the record's hours: all
      sixty of them deducted (floored at zero) when the record spans the window, exactly the
      ones inside it when it overlaps part of it, and nothing when it misses the window. */
  lemma CasosDoAlmoco(entrada: Instante, saida: Instante)
    ensures var d, he, hs := saida.minutos - entrada.minutos, HoraDoDia(entrada), HoraDoDia(saida);
      && (he <= InicioAlmoco && hs >= FimAlmoco ==>
            MinutosDeAlmoco(he, hs) == 60 && MinutosEstagio(entrada, saida) == Max(0, d - 60))
      && (!(he <= InicioAlmoco && hs >= FimAlmoco) && he < FimAlmoco && hs > InicioAlmoco ==>
            MinutosDeAlmoco(he, hs) <= 60 && MinutosEstagio(entrada, saida) == Max(0, d - MinutosDeAlmoco(he, hs)))
      && (he >= FimAlmoco || hs <= InicioAlmoco ==>
            MinutosDeAlmoco(he, hs) == 0 && MinutosEstagio(entrada, saida) == d)
  {
    MinutosDeAlmocoIntervalo(HoraDoDia(entrada), HoraDoDia(saida));
  }

  /** Within one day and with the exit after the entry, the three branches are one rule:
      the net minutes are the minutes worked minus exactly the lunch-window minutes inside
      the record. */
  lemma MesmoDiaDescontaSoOAlmoco(entrada: Instante, saida: Instante)
    requires entrada.minutos <= saida.minutos
    requires entrada.minutos / MinutosPorDia == saida.minutos / MinutosPorDia
    ensures MinutosEstagio(entrada, saida)
      == saida.minutos - entrada.minutos - MinutosDeAlmoco(HoraDoDia(entrada), HoraDoDia(saida))
  {
    var a, b := HoraDoDia(entrada), HoraDoDia(saida);
    assert b - a == saida.minutos - entrada.minutos;
    MinutosDeAlmocoIntervalo(a, b);
  }

  /** `Number(x.toFixed(1))`, as a count of tenths: the nearest tenth, halves away from zero. */
  function Decimos(x: real): (n: int)
    ensures -0.5 <= n as real - x * 10.0 <= 0.5
  {
    if x >= 0.0 then Round(x * 10.0) else -Round(-x * 10.0)
  }

  /** `calcularHorasEstagio`: zero unless both timestamps are there, else the net hours to one decimal. */
  function CalcularHorasEstagio(entrada: Option<Instante>, saida: Option<Instante>): (h: real)
    ensures entrada.None? || saida.None? ==> h == 0.0
    ensures entrada.Some? && saida.Some? ==>
      var exato := MinutosEstagio(entrada.value, saida.value) as real / 60.0;
      -0.05 <= h - exato <= 0.05
  {
    if entrada.None? || saida.None? then 0.0
    else Decimos(MinutosEstagio(entrada.value, saida.value) as real / 60.0) as real / 10.0
  }

  /** A row of `ponto_registros` as the overview selects it; an absent or empty timestamp is `None`. */
  datatype PontoSemana = PontoSemana(
    colaborador_id: string,
    horas_liquidas: Option<real>,
    data: string,
    entrada: Option<Instante>,
    saida: Option<Instante>)

  /** One step of the `reduce`: the stored net hours when positive, else the computed hours
      when both timestamps are there, else nothing. */
  function Contribuicao(p: PontoSemana): (h: real)
    ensures p.horas_liquidas.Some? && p.horas_liquidas.value > 0.0 ==> h == p.horas_liquidas.value
    ensures !(p.horas_liquidas.Some? && p.horas_liquidas.value > 0.0) ==>
      h == CalcularHorasEstagio(p.entrada, p.saida)
  {
    if p.horas_liquidas.Some? && p.horas_liquidas.value > 0.0 then p.horas_liquidas.value
    else if p.entrada.Some? && p.saida.Some? then CalcularHorasEstagio(p.entrada, p.saida)
    else 0.0
  }

  /** A record whose exit is not before its entry never lowers a total. */
  lemma ContribuicaoNaoNegativa(p: PontoSemana)
    requires p.entrada.Some? && p.saida.Some? ==> p.entrada.value.minutos <= p.saida.value.minutos
    ensures Contribuicao(p) >= 0.0
  {
  }

  /** `reduce((total, ponto) => ..., 0)`. */
  function SomaSemana(pontos: seq<PontoSemana>): real {
    if pontos == [] then 0.0 else SomaSemana(pontos[..|pontos| - 1]) + Contribuicao(pontos[|pontos| - 1])
  }

  lemma {:induction false} SomaSemanaConcat(a: seq<PontoSemana>, b: seq<PontoSemana>)
    ensures SomaSemana(a + b) == SomaSemana(a) + SomaSemana(b)
    decreases |b|
  {
    if b == [] {
      assert a + b == a;
    } else {
      SomaSemanaConcat(a, b[..|b| - 1]);
      assert (a + b)[..|a + b| - 1] == a + b[..|b| - 1];
    }
  }

  function DoColaborador(id: string): PontoSemana -> bool {
    (p: PontoSemana) => p.colaborador_id == id
  }

  /** `horasEstagioSemanaAnterior` of one collaborator. */
  function TotalSemanaAnterior(pontos: seq<PontoSemana>, id: string): real {
    SomaSemana(Filter(pontos, DoColaborador(id)))
  }

  /** A record of another collaborator leaves the total as it is; one of the collaborator
      adds exactly its contribution. */
  lemma TotalComMaisUmPonto(pontos: seq<PontoSemana>, p: PontoSemana, id: string)
    ensures p.colaborador_id != id ==> TotalSemanaAnterior(pontos + [p], id) == TotalSemanaAnterior(pontos, id)
    ensures p.colaborador_id == id ==>
      TotalSemanaAnterior(pontos + [p], id) == TotalSemanaAnterior(pontos, id) + Contribuicao(p)
  {
    FilterAppend(pontos, p, DoColaborador(id));
    SomaSemanaConcat(Filter(pontos, DoColaborador(id)), [p]);
    assert Filter(pontos, DoColaborador(id)) + [] == Filter(pontos, DoColaborador(id));
    assert SomaSemana([p]) == Contribuicao(p) by {
      assert [p][..0] == [];
    }
  }

  /** A row of the overview. */
  datatype TotalColaborador = TotalColaborador(id: string, nome: string, cargo: string, horas: real)

  function Horas(t: TotalColaborador): real {
    t.horas
  }

  /** `totaisColaboradores` before sorting: one row per collaborator, in the order given. */
  function Totais(colaboradores: seq<Colaborador>, pontos: seq<PontoSemana>): (r: seq<TotalColaborador>)
    ensures |r| == |colaboradores|
    ensures forall i :: 0 <= i < |r| ==>
      r[i] == TotalColaborador(colaboradores[i].id, colaboradores[i].nome, colaboradores[i].cargo,
                               TotalSemanaAnterior(pontos, colaboradores[i].id))
  {
    seq(|colaboradores|, i requires 0 <= i < |colaboradores| =>
      var c := colaboradores[i];
      TotalColaborador(c.id, c.nome, c.cargo, TotalSemanaAnterior(pontos, c.id)))
  }

  /** `carregarTotaisSemanaAnterior` after the two queries: the rows, sorted by hours, largest
      first; every row is a collaborator with that collaborator's own total. */
  method CarregarTotais(colaboradores: seq<Colaborador>, pontos: seq<PontoSemana>)
    returns (r: seq<TotalColaborador>)
    ensures multiset(r) == multiset(Totais(colaboradores, pontos))
    ensures |r| == |colaboradores|
    ensures SortedDesc(r, Horas)
    ensures forall t :: t in r ==> t.horas == TotalSemanaAnterior(pontos, t.id)
  {
    var totais := Totais(colaboradores, pontos);
    var a := new TotalColaborador[|totais|](i requires 0 <= i < |totais| => totais[i]);
    assert a[..] == totais;
    SortDescending(a, Horas);
    r := a[..];
    assert |r| == |multiset(r)| == |multiset(totais)| == |totais|;
    forall t | t in r
      ensures t.horas == TotalSemanaAnterior(pontos, t.id)
    {
      assert t in multiset(r);
      assert t in totais;
    }
  }
}
