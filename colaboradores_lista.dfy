/**
 * The administrator's list of collaborators (`ColaboradoresLista`): the
 * rows worth showing, the record being edited in the dialog (updated one
 * field at a time, the CPF kept formatted), and the rule that rows of type
 * 'admin' can be neither edited nor deleted. Its `formatCPF` is the same
 * text as the new-collaborator form's, so both use `Cpf.FormatCPF`.
 */
module ColaboradoresLista {
  import opened Options
  import opened JsText
  import opened Seqs
  import opened Cpf

  /** A row of the `colaboradores` prop, as loaded from `users`. */
  datatype Linha = Linha(id: string, nome: string, cpf: string, cargo: string, email: string, tipo: string)

  /** `colaborador && colaborador.id && colaborador.nome && colaborador.id.toString().trim() !== ''`;
      `None` is a null entry. */
  predicate Valido(c: Option<Linha>) {
    c.Some? && c.value.id != "" && c.value.nome != "" && Trim(c.value.id) != ""
  }

  /** The `id` test is implied by the trimmed-`id` test. */
  lemma ValidoSimplificado(c: Option<Linha>)
    ensures Valido(c) <==> c.Some? && c.value.nome != "" && !IsBlank(c.value.id)
  {
    if c.Some? && c.value.id == "" {
      assert IsBlank(c.value.id);
    }
  }

  function ColaboradoresValidos(colaboradores: seq<Option<Linha>>): (r: seq<Option<Linha>>)
    ensures |r| <= |colaboradores|
    ensures forall i :: 0 <= i < |r| ==> Valido(r[i])
  {
    Filter(colaboradores, Valido)
  }

  /** Exactly the valid rows are kept, in their original order. */
  lemma ColaboradoresValidosExatos(colaboradores: seq<Option<Linha>>, c: Option<Linha>)
    ensures c in ColaboradoresValidos(colaboradores) <==> c in colaboradores && Valido(c)
    ensures IsSubsequence(ColaboradoresValidos(colaboradores), colaboradores)
  {
    FilterMembership(colaboradores, Valido, c);
    FilterIsSubsequence(colaboradores, Valido);
  }

  /** A list with no invalid row is shown as it is. */
  lemma TodosValidos(colaboradores: seq<Option<Linha>>)
    requires forall i :: 0 <= i < |colaboradores| ==> Valido(colaboradores[i])
    ensures ColaboradoresValidos(colaboradores) == colaboradores
  {
    FilterAll(colaboradores, Valido);
  }

  /** `disabled={colaborador.tipo === 'admin'}`, on both the edit and the delete button. */
  function AcoesDesabilitadas(c: Linha): (b: bool)
    ensures b <==> c.tipo == "admin"
  {
    c.tipo == "admin"
  }

  /** `EditingColaborador`. */
  datatype EditingColaborador = EditingColaborador(id: string, nome: string, cpf: string, cargo: string, email: string, tipo: string)

  /** The keys of `EditingColaborador`. */
  datatype Campo = Id | Nome | CpfCampo | Cargo | Email | Tipo

  function Ler(e: EditingColaborador, c: Campo): string {
    match c
    case Id => e.id
    case Nome => e.nome
    case CpfCampo => e.cpf
    case Cargo => e.cargo
    case Email => e.email
    case Tipo => e.tipo
  }

  /** `{ ...prev, [field]: field === 'cpf' ? formatCPF(value) : value }`. */
  function ComEntrada(e: EditingColaborador, campo: Campo, value: string): (r: EditingColaborador)
    ensures Ler(r, campo) == if campo == CpfCampo then FormatCPF(value) else value
    ensures forall c :: c != campo ==> Ler(r, c) == Ler(e, c)
  {
    match campo
    case Id => e.(id := value)
    case Nome => e.(nome := value)
    case CpfCampo => e.(cpf := FormatCPF(value))
    case Cargo => e.(cargo := value)
    case Email => e.(email := value)
    case Tipo => e.(tipo := value)
  }

  /** The component's edit state: the record in the dialog, if any, and whether the dialog is open. */
  class Lista {
    var editing: Option<EditingColaborador>
    var dialogOpen: bool

    constructor ()
      ensures editing == None && !dialogOpen
    {
      editing, dialogOpen := None, false;
    }

    /** `handleEdit`: copies the row into the dialog as it is and opens it. It is reached only
        through the edit button, which is disabled on an admin row. */
    method HandleEdit(c: Linha)
      requires !AcoesDesabilitadas(c)
      modifies this
      ensures editing == Some(EditingColaborador(c.id, c.nome, c.cpf, c.cargo, c.email, c.tipo))
      ensures dialogOpen
      ensures editing.value.tipo != "admin"
    {
      editing := Some(EditingColaborador(c.id, c.nome, c.cpf, c.cargo, c.email, c.tipo));
      dialogOpen := true;
    }

    /** `handleInputChange`: nothing while no record is being edited; otherwise the named
        field of that record changes and nothing else. */
    method HandleInputChange(campo: Campo, value: string)
      modifies this
      ensures old(editing).None? ==> editing == None
      ensures old(editing).Some? ==> editing == Some(ComEntrada(old(editing).value, campo, value))
      ensures dialogOpen == old(dialogOpen)
    {
      if editing.None? {
        return;
      }
      editing := Some(ComEntrada(editing.value, campo, value));
    }
  }
}
