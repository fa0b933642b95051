/**
 * The "register today's attendance" card (`PontoCard`): two time inputs,
 * the net hours between them with a fixed hour of lunch always deducted,
 * and a button that marks the day as registered once both times are
 * filled in and then stays disabled.
 */
module PontoCard {
  import opened JsMath
  import opened TimeText
  import EscalasRecuperacao

  /** `calcularHoras`: hours from entry to exit less a fixed hour of lunch, never below zero;
      zero while either time is missing. */
  function CalcularHoras(entrada: string, saida: string): (h: real)
    requires IsTimeField(entrada) && IsTimeField(saida)
    ensures h >= 0.0
    ensures entrada == "" || saida == "" ==> h == 0.0
    ensures entrada != "" && saida != "" ==>
      h * 60.0 == Max(0, Minutes(saida) - Minutes(entrada) - 60) as real
  {
    if entrada == "" || saida == "" then 0.0
    else
      var totalMinutos := Minutes(saida) - Minutes(entrada) - 60;
      MaxReal(0.0, totalMinutos as real / 60.0)
  }

  /** An hour or less between entry and exit is worth nothing. */
  lemma AteUmaHoraNaoConta(entrada: string, saida: string)
    requires IsTime(entrada) && IsTime(saida)
    requires Minutes(saida) - Minutes(entrada) <= 60
    ensures CalcularHoras(entrada, saida) == 0.0
  {
  }

  /** The card deducts lunch on every day, the schedules only on days of more than six hours:
      they agree above six hours and differ by exactly the lunch hour from one to six hours. */
  lemma CartaoComparadoComEscala(entrada: string, saida: string)
    requires IsTime(entrada) && IsTime(saida)
    ensures var bruto := Minutes(saida) - Minutes(entrada);
      && (bruto > 360 ==> CalcularHoras(entrada, saida) * 60.0 == EscalasRecuperacao.CalcularHorasDia(entrada, saida) as real)
      && (60 <= bruto <= 360 ==> CalcularHoras(entrada, saida) * 60.0 == (EscalasRecuperacao.CalcularHorasDia(entrada, saida) - 60) as real)
  {
  }

  /** The toast `handleRegistrarPonto` shows. */
  datatype Aviso = CamposObrigatorios | Registrado(horasLiquidas: real)

  class PontoCard {
    var entrada: string
    var saida: string
    var registrado: bool

    /** Both inputs hold what an `<input type="time">` produces. */
    predicate Valid()
      reads this
    {
      IsTimeField(entrada) && IsTimeField(saida)
    }

    constructor ()
      ensures Valid()
      ensures entrada == "" && saida == "" && !registrado
    {
      entrada, saida, registrado := "", "", false;
    }

    /** `horasLiquidas`, recomputed on every render. */
    function HorasLiquidas(): (h: real)
      requires Valid()
      reads this
      ensures h >= 0.0
    {
      CalcularHoras(entrada, saida)
    }

    /** The "Resumo do Dia" box is shown exactly when both times are filled in; while it is
        hidden there are no net hours to show. */
    function ResumoVisivel(): (b: bool)
      requires Valid()
      reads this
      ensures b <==> entrada != "" && saida != ""
      ensures !b ==> HorasLiquidas() == 0.0
    {
      entrada != "" && saida != ""
    }

    /** `disabled={registrado}`. */
    function BotaoDesabilitado(): (b: bool)
      reads this
      ensures b <==> registrado
    {
      registrado
    }

    method SetEntrada(v: string)
      requires Valid() && IsTimeField(v)
      modifies this
      ensures Valid()
      ensures entrada == v && saida == old(saida) && registrado == old(registrado)
    {
      entrada := v;
    }

    method SetSaida(v: string)
      requires Valid() && IsTimeField(v)
      modifies this
      ensures Valid()
      ensures saida == v && entrada == old(entrada) && registrado == old(registrado)
    {
      saida := v;
    }

    /** `handleRegistrarPonto`: refuses while a time is missing and changes nothing; otherwise
        marks the day registered and reports the net hours the summary shows, after which the
        button is disabled. Registration is never undone, so a disabled button stays disabled. */
    method RegistrarPonto() returns (aviso: Aviso)
      requires Valid()
      modifies this
      ensures Valid()
      ensures entrada == old(entrada) && saida == old(saida)
      ensures old(entrada) == "" || old(saida) == "" ==>
        aviso == CamposObrigatorios && registrado == old(registrado)
      ensures old(entrada) != "" && old(saida) != "" ==>
        aviso == Registrado(CalcularHoras(entrada, saida)) && registrado
      ensures old(registrado) ==> registrado
      ensures aviso.Registrado? <==> ResumoVisivel()
      ensures aviso.Registrado? ==> aviso.horasLiquidas == HorasLiquidas() && BotaoDesabilitado()
      ensures old(BotaoDesabilitado()) ==> BotaoDesabilitado()
    {
      if entrada == "" || saida == "" {
        return CamposObrigatorios;
      }
      registrado := true;
      aviso := Registrado(HorasLiquidas());
    }
  }
}
