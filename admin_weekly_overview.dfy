/**
 * The administrator's view of the current week (`AdminWeeklyOverview`):
 * per collaborator, the sum of the stored net hours, the progress towards
 * the weekly goal of 30 hours, the hours still missing, a status and a
 * colour by progress band; the list sorted by progress, largest first; and
 * the summary cards (how many reached the goal, total hours, mean progress).
 */
module AdminWeeklyOverview {
  import opened Options
  import opened JsMath
  import opened Seqs
  import opened Sorting
  import opened Cadastro

  /** `metaSemanal`. */
  const MetaSemanal: real := 30.0

  /** A row of `ponto_registros` as this view selects it. */
  datatype PontoAdmin = PontoAdmin(colaborador_id: string, horas_liquidas: Option<real>)

  /** `ponto.horas_liquidas || 0`. */
  function Valor(p: PontoAdmin): real {
    if p.horas_liquidas.Some? then p.horas_liquidas.value else 0.0
  }

  function Soma(pontos: seq<PontoAdmin>): real {
    if pontos == [] then 0.0 else Soma(pontos[..|pontos| - 1]) + Valor(pontos[|pontos| - 1])
  }

  function DoColaborador(id: string): PontoAdmin -> bool {
    (p: PontoAdmin) => p.colaborador_id == id
  }

  /** `horasEstagio`: the collaborator's stored net hours of the week, a missing value counting as zero. */
  function HorasEstagio(pontos: seq<PontoAdmin>, id: string): real {
    Soma(Filter(pontos, DoColaborador(id)))
  }

  /** A record of another collaborator changes nothing; one of the collaborator adds its value. */
  lemma HorasComMaisUmPonto(pontos: seq<PontoAdmin>, p: PontoAdmin, id: string)
    ensures p.colaborador_id != id ==> HorasEstagio(pontos + [p], id) == HorasEstagio(pontos, id)
    ensures p.colaborador_id == id ==> HorasEstagio(pontos + [p], id) == HorasEstagio(pontos, id) + Valor(p)
  {
    FilterAppend(pontos, p, DoColaborador(id));
    var f := Filter(pontos, DoColaborador(id));
    assert f + [] == f;
    assert (f + [p])[..|f + [p]| - 1] == f;
  }

  /** `(horasEstagio / metaSemanal) * 100`. */
  function Progresso(horas: real): (p: real)
    ensures p * MetaSemanal == horas * 100.0
    ensures p >= 100.0 <==> horas >= MetaSemanal
    ensures p >= 0.0 <==> horas >= 0.0
  {
    (horas / MetaSemanal) * 100.0
  }

  /** `Math.max(0, metaSemanal - horasEstagio)`: what is missing to the goal, nothing once it is reached. */
  function HorasRestantes(horas: real): (r: real)
    ensures r >= 0.0
    ensures r == 0.0 <==> horas >= MetaSemanal
    ensures r > 0.0 ==> horas + r == MetaSemanal
  {
    MaxReal(0.0, MetaSemanal - horas)
  }

  /** Progress and hours still missing say the same thing about the goal. */
  lemma RestantesConcordaComProgresso(horas: real)
    ensures HorasRestantes(horas) == 0.0 <==> Progresso(horas) >= 100.0
    ensures HorasRestantes(horas) == MetaSemanal * (100.0 - MinReal(Progresso(horas), 100.0)) / 100.0
  {
  }

  datatype EstagiarioProgresso = EstagiarioProgresso(
    id: string, nome: string, cargo: string,
    horasEstagio: real, progresso: real, horasRestantes: real)

  /** One card's figures, all derived from the one sum of hours. */
  predicate Coerente(e: EstagiarioProgresso, pontos: seq<PontoAdmin>) {
    && e.horasEstagio == HorasEstagio(pontos, e.id)
    && e.progresso == Progresso(e.horasEstagio)
    && e.horasRestantes == HorasRestantes(e.horasEstagio)
  }

  function ProgressoDe(c: Colaborador, pontos: seq<PontoAdmin>): (e: EstagiarioProgresso)
    ensures e.id == c.id && e.nome == c.nome && e.cargo == c.cargo
    ensures Coerente(e, pontos)
  {
    var horas := HorasEstagio(pontos, c.id);
    EstagiarioProgresso(c.id, c.nome, c.cargo, horas, Progresso(horas), HorasRestantes(horas))
  }

  /** `progressoEstagiarios` before sorting: one card per collaborator, in the order given. */
  function ProgressoEstagiarios(colaboradores: seq<Colaborador>, pontos: seq<PontoAdmin>)
    : (r: seq<EstagiarioProgresso>)
    ensures |r| == |colaboradores|
    ensures forall i :: 0 <= i < |r| ==> r[i] == ProgressoDe(colaboradores[i], pontos)
  {
    if colaboradores == [] then []
    else ProgressoEstagiarios(colaboradores[..|colaboradores| - 1], pontos)
         + [ProgressoDe(colaboradores[|colaboradores| - 1], pontos)]
  }

  function ChaveProgresso(e: EstagiarioProgresso): real {
    e.progresso
  }

  /** `carregarProgressoEstagiarios` after the two queries: the cards sorted by progress,
      largest first; every card is a collaborator's, with figures from their own records. */
  method CarregarProgresso(colaboradores: seq<Colaborador>, pontos: seq<PontoAdmin>)
    returns (r: seq<EstagiarioProgresso>)
    ensures multiset(r) == multiset(ProgressoEstagiarios(colaboradores, pontos))
    ensures |r| == |colaboradores|
    ensures SortedDesc(r, ChaveProgresso)
    ensures forall e :: e in r ==> Coerente(e, pontos)
  {
    var cards := ProgressoEstagiarios(colaboradores, pontos);
    var a := new EstagiarioProgresso[|cards|](i requires 0 <= i < |cards| => cards[i]);
    assert a[..] == cards;
    SortDescending(a, ChaveProgresso);
    r := a[..];
    assert |r| == |multiset(r)| == |multiset(cards)| == |cards|;
    forall e | e in r
      ensures Coerente(e, pontos)
    {
      assert e in multiset(r);
      assert e in cards;
    }
  }

  /** `getProgressoStatus`: the band of the progress. */
  function StatusProgresso(p: real): (s: string)
    ensures s == "Meta atingida" <==> p >= 100.0
    ensures s == "Bom progresso" <==> 75.0 <= p < 100.0
    ensures s == "Em andamento" <==> 50.0 <= p < 75.0
    ensures s == "Atenção necessária" <==> p < 50.0
  {
    if p >= 100.0 then "Meta atingida"
    else if p >= 75.0 then "Bom progresso"
    else if p >= 50.0 then "Em andamento"
    else "Atenção necessária"
  }

  /** `getProgressoColor`. */
  function CorProgresso(p: real): string {
    if p >= 100.0 then "text-green-600"
    else if p >= 75.0 then "text-publievo-orange-600"
    else if p >= 50.0 then "text-yellow-600"
    else "text-red-600"
  }

  /** The colour each status is shown in. */
  function CorDoStatus(s: string): string {
    if s == "Meta atingida" then "text-green-600"
    else if s == "Bom progresso" then "text-publievo-orange-600"
    else if s == "Em andamento" then "text-yellow-600"
    else "text-red-600"
  }

  /** The colour and the status use the same bands: the colour is the status's colour. */
  lemma CorSegueStatus(p: real)
    ensures CorProgresso(p) == CorDoStatus(StatusProgresso(p))
  {
  }

  /** `Math.min(estagiario.progresso, 100)`: the bar fills up to the goal and no further. */
  function ValorBarra(p: real): (v: real)
    ensures v <= 100.0
    ensures v == 100.0 <==> p >= 100.0
    ensures p < 100.0 ==> v == p
  {
    MinReal(p, 100.0)
  }

  predicate AtingiuMeta(e: EstagiarioProgresso) {
    e.progresso >= 100.0
  }

  /** The "Meta Atingida" card: `estagiarios.filter(e => e.progresso >= 100).length`. */
  function ContaMetaAtingida(es: seq<EstagiarioProgresso>): nat {
    |Filter(es, AtingiuMeta)|
  }

  /** Sorting the cards does not change the count. */
  lemma ContaIndependeDaOrdem(a: seq<EstagiarioProgresso>, b: seq<EstagiarioProgresso>)
    requires multiset(a) == multiset(b)
    ensures ContaMetaAtingida(a) == ContaMetaAtingida(b)
  {
    FilterCountPermutation(a, b, AtingiuMeta);
  }

  function MetaDe(pontos: seq<PontoAdmin>): Colaborador -> bool {
    (c: Colaborador) => HorasEstagio(pontos, c.id) >= MetaSemanal
  }

  /** The count is the number of collaborators whose week has at least thirty hours. */
  lemma {:induction false} ContaEhQuemFezTrintaHoras(colaboradores: seq<Colaborador>, pontos: seq<PontoAdmin>)
    ensures ContaMetaAtingida(ProgressoEstagiarios(colaboradores, pontos)) == |Filter(colaboradores, MetaDe(pontos))|
  {
    if colaboradores != [] {
      var init, last := colaboradores[..|colaboradores| - 1], colaboradores[|colaboradores| - 1];
      ContaEhQuemFezTrintaHoras(init, pontos);
      assert colaboradores == init + [last];
      FilterAppend(init, last, MetaDe(pontos));
      FilterAppend(ProgressoEstagiarios(init, pontos), ProgressoDe(last, pontos), AtingiuMeta);
    }
  }

  /** The "Total Horas" card. */
  function TotalHoras(es: seq<EstagiarioProgresso>): real {
    if es == [] then 0.0 else TotalHoras(es[..|es| - 1]) + es[|es| - 1].horasEstagio
  }

  function SomaProgresso(es: seq<EstagiarioProgresso>): real {
    if es == [] then 0.0 else SomaProgresso(es[..|es| - 1]) + es[|es| - 1].progresso
  }

  /** The "Progresso Médio" card: the mean progress, "0" while the list is empty. */
  function ProgressoMedio(es: seq<EstagiarioProgresso>): real {
    if |es| > 0 then SomaProgresso(es) / |es| as real else 0.0
  }

  lemma {:induction false} SomaProgressoLinear(es: seq<EstagiarioProgresso>)
    requires forall i :: 0 <= i < |es| ==> es[i].progresso == Progresso(es[i].horasEstagio)
    ensures SomaProgresso(es) == Progresso(TotalHoras(es))
  {
    if es != [] {
      SomaProgressoLinear(es[..|es| - 1]);
    }
  }

  /** The mean progress is the progress of the mean hours. */
  lemma ProgressoMedioDaMediaDeHoras(es: seq<EstagiarioProgresso>)
    requires forall i :: 0 <= i < |es| ==> es[i].progresso == Progresso(es[i].horasEstagio)
    requires |es| > 0
    ensures ProgressoMedio(es) == Progresso(TotalHoras(es) / |es| as real)
  {
    SomaProgressoLinear(es);
    ProgressoDivide(TotalHoras(es), |es| as real);
  }

  lemma ProgressoDivide(t: real, n: real)
    requires n > 0.0
    ensures Progresso(t) / n == Progresso(t / n)
  {
    var p, q := Progresso(t), Progresso(t / n);
    assert p * MetaSemanal == t * 100.0;
    assert q * MetaSemanal == (t / n) * 100.0;
    assert (p / n) * MetaSemanal == (t / n) * 100.0;
  }
}
