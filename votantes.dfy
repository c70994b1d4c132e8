/** The voter list of Votantes.js: the search filter and the list update after a deletion. */
module Votantes {
  import opened Seqs
  import opened Text
  import opened Records

  /** `filteredCandidates`: the voters whose search text contains the term, ignoring case, in list order. */
  function VotantesFiltrados(votantes: seq<Votante>, searchTerm: string): (r: seq<Votante>)
    ensures forall v :: v in r <==> v in votantes && CoincideBusqueda(v.perfil, searchTerm)
    ensures forall v :: multiset(r)[v] == if CoincideBusqueda(v.perfil, searchTerm) then multiset(votantes)[v] else 0
    ensures Subsequence(r, votantes)
  {
    var p := (v: Votante) => CoincideBusqueda(v.perfil, searchTerm);
    FilterMultiset(votantes, p);
    Filter(votantes, p)
  }

  /** An empty search lists every voter, in order. */
  lemma BusquedaVacia(votantes: seq<Votante>)
    ensures VotantesFiltrados(votantes, "") == votantes
  {
    forall v: Votante ensures CoincideBusqueda(v.perfil, "") {
      ContainsEmpty(Lower(TextoBusqueda(v.perfil)));
    }
    FilterKeepsAll(votantes, (v: Votante) => CoincideBusqueda(v.perfil, ""));
  }

  /** The count shown beside the list never exceeds the number of voters. */
  lemma FiltradosAcotados(votantes: seq<Votante>, searchTerm: string)
    ensures |VotantesFiltrados(votantes, searchTerm)| <= |votantes|
  {
    SubsequenceLength(VotantesFiltrados(votantes, searchTerm), votantes);
  }

  /** `prevCandidates.filter(c => c._id !== id)`: exactly the records with that id go, the rest keep their order. */
  function SinVotante(votantes: seq<Votante>, id: string): (r: seq<Votante>)
    ensures forall v :: v in r ==> v.perfil.id != id
    ensures forall v :: multiset(r)[v] == if v.perfil.id == id then 0 else multiset(votantes)[v]
    ensures Subsequence(r, votantes)
  {
    var p := (v: Votante) => v.perfil.id != id;
    FilterMultiset(votantes, p);
    Filter(votantes, p)
  }

  /**
   * eliminarCandidato: nothing is sent unless the user confirms; then the list
   * changes only when the response carries `message`.
   */
  function EliminarVotante(votantes: seq<Votante>, id: string, confirmado: bool, mensaje: string)
    : (r: seq<Votante>)
    ensures !confirmado || mensaje == "" ==> r == votantes
    ensures confirmado && mensaje != "" ==> r == SinVotante(votantes, id)
  {
    if confirmado && mensaje != "" then SinVotante(votantes, id) else votantes
  }
}
