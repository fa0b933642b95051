/**
 * The administrator's attendance history (`PontoHistorico`): the records
 * narrowed by an optional collaborator filter and an optional date filter,
 * the button that clears both, and the record the edit dialog writes back,
 * an empty time meaning "no time".
 */
module PontoHistorico {
  import opened Options
  import opened Seqs

  /** `PontoRegistro`, without the joined collaborator name and role. */
  datatype PontoRegistro = PontoRegistro(
    id: string, colaborador_id: string, data: string,
    entrada: Option<string>, saida: Option<string>, horas_liquidas: real)

  /** `filtroColaborador` and `filtroData`; the empty string means "any". */
  datatype Filtros = Filtros(colaborador: string, data: string)

  /** The "Limpar Filtros" button. */
  function LimparFiltros(): (f: Filtros)
    ensures f.colaborador == "" && f.data == ""
  {
    Filtros("", "")
  }

  predicate CombinaColaborador(f: Filtros, p: PontoRegistro) {
    f.colaborador == "" || p.colaborador_id == f.colaborador
  }

  predicate CombinaData(f: Filtros, p: PontoRegistro) {
    f.data == "" || p.data == f.data
  }

  function Corresponde(f: Filtros): PontoRegistro -> bool {
    (p: PontoRegistro) => CombinaColaborador(f, p) && CombinaData(f, p)
  }

  /** `pontosFiltrados`. */
  function PontosFiltrados(pontos: seq<PontoRegistro>, f: Filtros): (r: seq<PontoRegistro>)
    ensures |r| <= |pontos|
    ensures forall i :: 0 <= i < |r| ==>
      (f.colaborador != "" ==> r[i].colaborador_id == f.colaborador) && (f.data != "" ==> r[i].data == f.data)
  {
    Filter(pontos, Corresponde(f))
  }

  /** A record is shown exactly when it is in the list and matches every filter that is set;
      the shown records keep their order. */
  lemma FiltradosExatos(pontos: seq<PontoRegistro>, f: Filtros, p: PontoRegistro)
    ensures p in PontosFiltrados(pontos, f) <==> p in pontos && CombinaColaborador(f, p) && CombinaData(f, p)
    ensures IsSubsequence(PontosFiltrados(pontos, f), pontos)
  {
    FilterMembership(pontos, Corresponde(f), p);
    FilterIsSubsequence(pontos, Corresponde(f));
  }

  /** Clearing the filters shows the whole list again. */
  lemma LimparMostraTudo(pontos: seq<PontoRegistro>)
    ensures PontosFiltrados(pontos, LimparFiltros()) == pontos
  {
    FilterAll(pontos, Corresponde(LimparFiltros()));
  }

  /** Filtering what is shown again with the same filters shows the same. */
  lemma FiltrarDuasVezes(pontos: seq<PontoRegistro>, f: Filtros)
    ensures PontosFiltrados(PontosFiltrados(pontos, f), f) == PontosFiltrados(pontos, f)
  {
    FilterIdempotent(pontos, Corresponde(f));
  }

  /** What `handleSaveEdit` writes for one time field: nothing for an empty input, otherwise
      the record's date and the time, `${data}T${hora}` (before `toISOString`). */
  function TimestampDe(data: string, hora: string): (r: Option<string>)
    ensures r == None <==> hora == ""
    ensures r.Some? ==> r.value == data + "T" + hora
  {
    if hora == "" then None else Some(data + "T" + hora)
  }

  datatype PontoData = PontoData(entrada: Option<string>, saida: Option<string>)

  /** `pontoData` of `handleSaveEdit`. */
  function PontoDataDe(editing: PontoRegistro, entrada: string, saida: string): (d: PontoData)
    ensures d.entrada == None <==> entrada == ""
    ensures d.saida == None <==> saida == ""
    ensures d.entrada.Some? ==> d.entrada.value == editing.data + "T" + entrada
    ensures d.saida.Some? ==> d.saida.value == editing.data + "T" + saida
  {
    PontoData(TimestampDe(editing.data, entrada), TimestampDe(editing.data, saida))
  }
}
