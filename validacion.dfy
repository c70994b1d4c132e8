/**
 * The candidate validation list of Validacion.js: the search and filters,
 * the ordering by validation status, and the list updates after the
 * validate, invalidate and delete requests succeed.
 */
module Validacion {
  import opened Seqs
  import opened Sorting
  import opened Text
  import opened Records

  /** The filter value that admits every office and every status. */
  const Todos: string := "todos"

  /**
   * `validationOrder[c.validacion]`. A status missing from the table is
   * undefined in the source; it is ranked here after "invalida".
   */
  function Rango(c: Candidato): int
  {
    if c.validacion == "valida" then 1
    else if c.validacion == "pendiente" then 2
    else if c.validacion == "invalida" then 3
    else 4
  }

  /** The comparator's `return 0`: every pair ties. */
  function SinOrden(c: Candidato): int { 0 }

  /** The sort key: by status rank when the status filter is "todos", otherwise none. */
  function ClaveOrden(sortValidation: string): Candidato -> int
  {
    if sortValidation == Todos then Rango else SinOrden
  }

  /** The three conditions of the filter callback. */
  predicate Coincide(c: Candidato, searchTerm: string, filterCandidatura: string, sortValidation: string)
  {
    && CoincideBusqueda(c.perfil, searchTerm)
    && (filterCandidatura == Todos || Lower(c.candidatura) == Lower(filterCandidatura))
    && (sortValidation == Todos || c.validacion == sortValidation)
  }

  /** `candidates.filter(...)`: the candidates that match, every copy of each, in order. */
  function Filtrados(cands: seq<Candidato>, searchTerm: string, filterCandidatura: string, sortValidation: string)
    : (r: seq<Candidato>)
    ensures forall c :: c in r <==> c in cands && Coincide(c, searchTerm, filterCandidatura, sortValidation)
    ensures forall c :: multiset(r)[c]
                     == if Coincide(c, searchTerm, filterCandidatura, sortValidation) then multiset(cands)[c] else 0
    ensures Subsequence(r, cands)
  {
    var p := c => Coincide(c, searchTerm, filterCandidatura, sortValidation);
    FilterMultiset(cands, p);
    Filter(cands, p)
  }

  /**
   * `filteredCandidates`: the matching candidates, ordered valida, pendiente,
   * invalida when the status filter is "todos" (ties in list order), and in
   * list order otherwise.
   */
  function CandidatosFiltrados(cands: seq<Candidato>, searchTerm: string, filterCandidatura: string,
                               sortValidation: string): (r: seq<Candidato>)
    ensures multiset(r) == multiset(Filtrados(cands, searchTerm, filterCandidatura, sortValidation))
    ensures forall c :: c in r <==> c in cands && Coincide(c, searchTerm, filterCandidatura, sortValidation)
    ensures sortValidation == Todos ==> forall i, j :: 0 <= i < j < |r| ==> Rango(r[i]) <= Rango(r[j])
    ensures sortValidation == Todos ==>
              forall k :: WithKey(r, Rango, k) == WithKey(Filtrados(cands, searchTerm, filterCandidatura, sortValidation), Rango, k)
    ensures sortValidation != Todos ==> r == Filtrados(cands, searchTerm, filterCandidatura, sortValidation)
  {
    var f := Filtrados(cands, searchTerm, filterCandidatura, sortValidation);
    var key := ClaveOrden(sortValidation);
    SortByMembers(f, key);
    assert sortValidation != Todos ==> SortBy(f, key) == f by {
      if sortValidation != Todos {
        SortByTies(f, key, 0);
      }
    }
    assert sortValidation == Todos ==> forall k :: WithKey(SortBy(f, key), Rango, k) == WithKey(f, Rango, k) by {
      if sortValidation == Todos {
        forall k ensures WithKey(SortBy(f, key), Rango, k) == WithKey(f, Rango, k) {
          SortByStable(f, Rango, k);
        }
      }
    }
    SortBy(f, key)
  }

  /** With an empty search and both filters at "todos" every candidate is listed. */
  lemma SinFiltros(cands: seq<Candidato>)
    ensures multiset(CandidatosFiltrados(cands, "", Todos, Todos)) == multiset(cands)
  {
    forall c ensures Coincide(c, "", Todos, Todos) {
      ContainsEmpty(Lower(TextoBusqueda(c.perfil)));
    }
    FilterKeepsAll(cands, c => Coincide(c, "", Todos, Todos));
  }

  /** `prevCandidates.map(c => c._id === id ? { ...c, validacion: v } : c)`. */
  function ConValidacion(cands: seq<Candidato>, id: string, v: string): (r: seq<Candidato>)
    ensures |r| == |cands|
    ensures forall i :: 0 <= i < |r| ==> r[i].perfil == cands[i].perfil && r[i].candidatura == cands[i].candidatura
    ensures forall i :: 0 <= i < |r| ==> r[i].validacion == if cands[i].perfil.id == id then v else cands[i].validacion
  {
    seq(|cands|, i requires 0 <= i < |cands| =>
          if cands[i].perfil.id == id then cands[i].(validacion := v) else cands[i])
  }

  /** A later status for the same id replaces an earlier one. */
  lemma ConValidacionUltima(cands: seq<Candidato>, id: string, v: string, w: string)
    ensures ConValidacion(ConValidacion(cands, id, v), id, w) == ConValidacion(cands, id, w)
  {
  }

  /** A candidate just validated is listed under the "valida" status filter when it matches the search and office. */
  lemma ValidadoVisible(cands: seq<Candidato>, i: nat, searchTerm: string, filterCandidatura: string)
    requires i < |cands|
    requires CoincideBusqueda(cands[i].perfil, searchTerm)
    requires filterCandidatura == Todos || Lower(cands[i].candidatura) == Lower(filterCandidatura)
    ensures ConValidacion(cands, cands[i].perfil.id, "valida")[i]
            in CandidatosFiltrados(ConValidacion(cands, cands[i].perfil.id, "valida"), searchTerm, filterCandidatura, "valida")
  {
    var r := ConValidacion(cands, cands[i].perfil.id, "valida");
    assert r[i] in r;
  }

  /**
   * The list update after `PUT /politico/{id}` with a new validacion: the
   * candidate with that id takes it, only when the response carries `_id`.
   * validarCandidato sends "valida".
   */
  function Revisar(cands: seq<Candidato>, id: string, validacion: string, respuestaId: string): (r: seq<Candidato>)
    ensures respuestaId == "" ==> r == cands
    ensures respuestaId != "" ==> r == ConValidacion(cands, id, validacion)
  {
    if respuestaId != "" then ConValidacion(cands, id, validacion) else cands
  }

  /** invalidarCandidato: nothing is sent unless the user confirms; then as Revisar with "invalida". */
  function InvalidarCandidato(cands: seq<Candidato>, id: string, confirmado: bool, respuestaId: string)
    : (r: seq<Candidato>)
    ensures !confirmado || respuestaId == "" ==> r == cands
    ensures confirmado && respuestaId != "" ==> r == ConValidacion(cands, id, "invalida")
  {
    if confirmado then Revisar(cands, id, "invalida", respuestaId) else cands
  }

  /** `prevCandidates.filter(c => c._id !== id)`: exactly the records with that id go, the rest keep their order. */
  function SinCandidato(cands: seq<Candidato>, id: string): (r: seq<Candidato>)
    ensures forall c :: c in r ==> c.perfil.id != id
    ensures forall c :: multiset(r)[c] == if c.perfil.id == id then 0 else multiset(cands)[c]
    ensures Subsequence(r, cands)
  {
    var p := (c: Candidato) => c.perfil.id != id;
    FilterMultiset(cands, p);
    Filter(cands, p)
  }

  /**
   * eliminarCandidato: nothing is sent unless the user confirms; then the list
   * changes only when the response carries `message`.
   */
  function EliminarCandidato(cands: seq<Candidato>, id: string, confirmado: bool, mensaje: string)
    : (r: seq<Candidato>)
    ensures !confirmado || mensaje == "" ==> r == cands
    ensures confirmado && mensaje != "" ==> r == SinCandidato(cands, id)
  {
    if confirmado && mensaje != "" then SinCandidato(cands, id) else cands
  }
}
