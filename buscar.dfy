/**
 * The proposal search of Buscar.js: the search and category filter, the
 * sort by vote count or date, the title shortening and the count shown
 * under the table.
 */
module Buscar {
  import opened Wrappers
  import opened Seqs
  import opened Sorting
  import opened Text
  import opened Records

  /** The category filter value that admits every category. */
  const Todas: string := "todos"

  /** The search: the term, ignoring case, in the title, the description or the author's "nombre apellido". */
  predicate CoincideTexto(p: Propuesta, searchTerm: string)
  {
    var t := Lower(searchTerm);
    || Contains(Lower(p.titulo), t)
    || Contains(Lower(p.descripcion), t)
    || (p.politico.Some? && Contains(Lower(p.politico.value.nombre + " " + p.politico.value.apellido), t))
  }

  /** "todos" admits every category; otherwise the category must equal the filter, ignoring case. */
  predicate CoincideCategoria(p: Propuesta, filterCategoria: string)
  {
    filterCategoria == Todas || Lower(p.categoria) == Lower(filterCategoria)
  }

  predicate Coincide(p: Propuesta, searchTerm: string, filterCategoria: string)
  {
    CoincideTexto(p, searchTerm) && CoincideCategoria(p, filterCategoria)
  }

  /** `filteredPropuestas` before the sort: the matching proposals, every copy of each, in order. */
  function Filtradas(propuestas: seq<Propuesta>, searchTerm: string, filterCategoria: string): (r: seq<Propuesta>)
    ensures forall p :: p in r <==> p in propuestas && Coincide(p, searchTerm, filterCategoria)
    ensures forall p :: multiset(r)[p] == if Coincide(p, searchTerm, filterCategoria) then multiset(propuestas)[p] else 0
    ensures Subsequence(r, propuestas)
  {
    var keep := (p: Propuesta) => Coincide(p, searchTerm, filterCategoria);
    FilterMultiset(propuestas, keep);
    Filter(propuestas, keep)
  }

  /** `propuesta.votos?.length || 0`. */
  function NumVotos(p: Propuesta): int
  {
    |VotosDe(p)|
  }

  /** The creation time in milliseconds, 0 when the field is missing. */
  function Fecha(p: Propuesta): int
  {
    p.fechaCreacion.GetOr(0)
  }

  function MenosVotos(p: Propuesta): int { -NumVotos(p) }

  function MenosFecha(p: Propuesta): int { -Fecha(p) }

  /** The default branch's `return 0`. */
  function SinOrden(p: Propuesta): int { 0 }

  /** The comparator chosen by `sortOption`, as a sort key. */
  function ClaveOrden(sortOption: string): Propuesta -> int
  {
    if sortOption == "votos_desc" then MenosVotos
    else if sortOption == "votos_asc" then NumVotos
    else if sortOption == "fecha_desc" then MenosFecha
    else if sortOption == "fecha_asc" then Fecha
    else SinOrden
  }

  /**
   * `sortedPropuestas`: the filtered proposals in the chosen order (ties in
   * list order), or in list order for an unknown option.
   */
  function Ordenadas(propuestas: seq<Propuesta>, searchTerm: string, filterCategoria: string, sortOption: string)
    : (r: seq<Propuesta>)
    ensures multiset(r) == multiset(Filtradas(propuestas, searchTerm, filterCategoria))
    ensures sortOption == "votos_desc" ==> forall i, j :: 0 <= i < j < |r| ==> NumVotos(r[i]) >= NumVotos(r[j])
    ensures sortOption == "votos_asc" ==> forall i, j :: 0 <= i < j < |r| ==> NumVotos(r[i]) <= NumVotos(r[j])
    ensures sortOption == "fecha_desc" ==> forall i, j :: 0 <= i < j < |r| ==> Fecha(r[i]) >= Fecha(r[j])
    ensures sortOption == "fecha_asc" ==> forall i, j :: 0 <= i < j < |r| ==> Fecha(r[i]) <= Fecha(r[j])
    ensures sortOption !in ["votos_desc", "votos_asc", "fecha_desc", "fecha_asc"] ==>
              r == Filtradas(propuestas, searchTerm, filterCategoria)
  {
    var f := Filtradas(propuestas, searchTerm, filterCategoria);
    var key := ClaveOrden(sortOption);
    assert sortOption !in ["votos_desc", "votos_asc", "fecha_desc", "fecha_asc"] ==> SortBy(f, key) == f by {
      if sortOption !in ["votos_desc", "votos_asc", "fecha_desc", "fecha_asc"] {
        SortByTies(f, key, 0);
      }
    }
    SortBy(f, key)
  }

  /** Under "votos_asc", proposals with the same vote count keep their list order. */
  lemma EmpatesAscendentes(propuestas: seq<Propuesta>, searchTerm: string, filterCategoria: string, n: int)
    ensures WithKey(Ordenadas(propuestas, searchTerm, filterCategoria, "votos_asc"), NumVotos, n)
         == WithKey(Filtradas(propuestas, searchTerm, filterCategoria), NumVotos, n)
  {
    var f := Filtradas(propuestas, searchTerm, filterCategoria);
    assert Ordenadas(propuestas, searchTerm, filterCategoria, "votos_asc") == SortBy(f, NumVotos) by {
      assert ClaveOrden("votos_asc") == NumVotos;
    }
    SortByStable(f, NumVotos, n);
  }

  /** Under "votos_desc", proposals with the same vote count keep their list order. */
  lemma EmpatesDescendentes(propuestas: seq<Propuesta>, searchTerm: string, filterCategoria: string, k: int)
    ensures WithKey(Ordenadas(propuestas, searchTerm, filterCategoria, "votos_desc"), MenosVotos, k)
         == WithKey(Filtradas(propuestas, searchTerm, filterCategoria), MenosVotos, k)
  {
    var f := Filtradas(propuestas, searchTerm, filterCategoria);
    assert Ordenadas(propuestas, searchTerm, filterCategoria, "votos_desc") == SortBy(f, MenosVotos) by {
      assert ClaveOrden("votos_desc") == MenosVotos;
    }
    SortByStable(f, MenosVotos, k);
  }

  /** "Mostrando x de y": the filtered count never exceeds the number of proposals. */
  lemma Mostrando(propuestas: seq<Propuesta>, searchTerm: string, filterCategoria: string, sortOption: string)
    ensures |Ordenadas(propuestas, searchTerm, filterCategoria, sortOption)| <= |propuestas|
  {
    var f := Filtradas(propuestas, searchTerm, filterCategoria);
    SubsequenceLength(f, propuestas);
    var r := Ordenadas(propuestas, searchTerm, filterCategoria, sortOption);
    assert |r| == |multiset(r)| == |multiset(f)| == |f|;
  }

  /** The longest title shown in full. */
  const LargoTitulo: nat := 45

  /** The title cell: a title longer than 45 characters is cut to 45 and "..." appended. */
  function Titulo(t: string): (r: string)
    ensures |t| <= LargoTitulo ==> r == t
    ensures |t| > LargoTitulo ==>
              |r| == LargoTitulo + 3 && r[..LargoTitulo] == t[..LargoTitulo] && r[LargoTitulo..] == "..."
    ensures |r| <= LargoTitulo + 3
  {
    if |t| > LargoTitulo then t[..LargoTitulo] + "..." else t
  }
}
