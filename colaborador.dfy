/** A row of the collaborator query the overview screens run: `users` with `tipo = 'colaborador'`, `select('id, nome, cargo')`. */
module Cadastro {
  datatype Colaborador = Colaborador(id: string, nome: string, cargo: string)
}
