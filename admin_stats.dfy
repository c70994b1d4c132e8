/**
 * The administrator statistics of Estadisticas.js: the memo `adminData`.
 * Voters and candidates are pooled into one list, tagged with the list they
 * came from, and three dictionaries are filled by loops over it: the age
 * histogram, the city histogram and the per-category rating totals.
 */
module AdminStats {
  import opened Wrappers
  import opened Seqs
  import opened Sorting
  import opened Tally
  import opened Text
  import opened Records

  datatype Tipo = TipoVotante | TipoCandidato

  /** An element of `todos`: the age and city of a record and the list it came from. */
  datatype Miembro = Miembro(edad: int, ciudad: string, tipo: Tipo)

  /** `[...votantes, ...candidatos]`, each record tagged with its tipo. */
  function Todos(votantes: seq<Votante>, candidatos: seq<Candidato>): (t: seq<Miembro>)
    ensures |t| == |votantes| + |candidatos|
    ensures forall i :: 0 <= i < |votantes| ==>
              t[i] == Miembro(votantes[i].perfil.edad, votantes[i].perfil.ciudad, TipoVotante)
    ensures forall i :: 0 <= i < |candidatos| ==>
              t[|votantes| + i] == Miembro(candidatos[i].perfil.edad, candidatos[i].perfil.ciudad, TipoCandidato)
  {
    seq(|votantes|, i requires 0 <= i < |votantes| =>
          Miembro(votantes[i].perfil.edad, votantes[i].perfil.ciudad, TipoVotante))
    + seq(|candidatos|, i requires 0 <= i < |candidatos| =>
          Miembro(candidatos[i].perfil.edad, candidatos[i].perfil.ciudad, TipoCandidato))
  }

  // ---------------------------------------------------------------- ages

  /** A row of `edadData`: how many voters and candidates have this age. */
  datatype EdadFila = EdadFila(edad: int, votantes: nat, candidatos: nat)

  function EdadDe(f: EdadFila): int { f.edad }

  function PersonasDe(f: EdadFila): int { f.votantes + f.candidatos }

  /** The ages of the members, in order. */
  function Edades(todos: seq<Miembro>): (r: seq<int>)
    ensures |r| == |todos|
  {
    if todos == [] then [] else Edades(todos[..|todos| - 1]) + [todos[|todos| - 1].edad]
  }

  /** The ages of the members of one tipo, in order. */
  function EdadesDe(todos: seq<Miembro>, t: Tipo): seq<int>
  {
    if todos == [] then []
    else
      var u := todos[|todos| - 1];
      EdadesDe(todos[..|todos| - 1], t) + (if u.tipo == t then [u.edad] else [])
  }

  /** The row the source builds for age a. */
  function FilaEdad(todos: seq<Miembro>, a: int): EdadFila
  {
    EdadFila(a, Count(EdadesDe(todos, TipoVotante), a), Count(EdadesDe(todos, TipoCandidato), a))
  }

  /** The rows of the age dictionary in key-insertion order. */
  function FilasEdad(todos: seq<Miembro>): seq<EdadFila>
  {
    var order := Distinct(Edades(todos));
    seq(|order|, j requires 0 <= j < |order| => FilaEdad(todos, order[j]))
  }

  /** The state of `edades` after the loop has visited todos. */
  ghost predicate EdadesInv(todos: seq<Miembro>, edades: map<int, EdadFila>, order: seq<int>)
  {
    && order == Distinct(Edades(todos))
    && (forall a :: a in edades <==> a in Edades(todos))
    && (forall a :: a in edades ==> edades[a] == FilaEdad(todos, a))
  }

  lemma EdadesSnoc(todos: seq<Miembro>, u: Miembro, t: Tipo)
    ensures Edades(todos + [u]) == Edades(todos) + [u.edad]
    ensures EdadesDe(todos + [u], t) == EdadesDe(todos, t) + (if u.tipo == t then [u.edad] else [])
  {
    assert (todos + [u])[..|todos|] == todos;
  }

  /** The new row for u's age: its counter for u's tipo goes up by one. */
  function Contar(edades: map<int, EdadFila>, u: Miembro): EdadFila
  {
    var fila := if u.edad in edades then edades[u.edad] else EdadFila(u.edad, 0, 0);
    if u.tipo == TipoVotante then fila.(votantes := fila.votantes + 1)
    else fila.(candidatos := fila.candidatos + 1)
  }

  lemma {:induction false} FilaEdadSnoc(todos: seq<Miembro>, u: Miembro, a: int)
    ensures FilaEdad(todos + [u], a).votantes
         == FilaEdad(todos, a).votantes + (if u.tipo == TipoVotante && u.edad == a then 1 else 0)
    ensures FilaEdad(todos + [u], a).candidatos
         == FilaEdad(todos, a).candidatos + (if u.tipo == TipoCandidato && u.edad == a then 1 else 0)
  {
    EdadesSnoc(todos, u, TipoVotante);
    EdadesSnoc(todos, u, TipoCandidato);
    if u.tipo == TipoVotante {
      CountSnoc(EdadesDe(todos, TipoVotante), u.edad, a);
      assert EdadesDe(todos, TipoCandidato) + [] == EdadesDe(todos, TipoCandidato);
    } else {
      CountSnoc(EdadesDe(todos, TipoCandidato), u.edad, a);
      assert EdadesDe(todos, TipoVotante) + [] == EdadesDe(todos, TipoVotante);
    }
  }

  /** One iteration of the age loop keeps the dictionary in step with the prefix visited. */
  lemma {:induction false} EdadesStep(todos: seq<Miembro>, u: Miembro, t: seq<Miembro>,
                                      edades: map<int, EdadFila>, order: seq<int>)
    requires EdadesInv(todos, edades, order)
    requires t == todos + [u]
    ensures EdadesInv(t, edades[u.edad := Contar(edades, u)],
                      if u.edad in edades then order else order + [u.edad])
  {
    var e := edades[u.edad := Contar(edades, u)];
    EdadesSnoc(todos, u, TipoVotante);
    assert Edades(t) == Edades(todos) + [u.edad];
    DistinctSnoc(Edades(todos), u.edad);
    assert u.edad in edades <==> u.edad in Edades(todos);
    forall a ensures a in e <==> a in Edades(t) {
      assert a in Edades(t) <==> a in Edades(todos) || a == u.edad;
    }
    forall a | a in e ensures e[a] == FilaEdad(t, a) {
      FilaEdadCase(todos, edades, u, a);
    }
  }

  /** EdadesStep at position i of the list. */
  lemma EdadesStepAt(todos: seq<Miembro>, i: nat, edades: map<int, EdadFila>, order: seq<int>)
    requires i < |todos|
    requires EdadesInv(todos[..i], edades, order)
    ensures EdadesInv(todos[..i + 1], edades[todos[i].edad := Contar(edades, todos[i])],
                      if todos[i].edad in edades then order else order + [todos[i].edad])
  {
    assert todos[..i + 1] == todos[..i] + [todos[i]];
    EdadesStep(todos[..i], todos[i], todos[..i + 1], edades, order);
  }

  /** The row for age a after u is counted, from what the dictionary held for a before. */
  lemma FilaEdadCase(todos: seq<Miembro>, edades: map<int, EdadFila>, u: Miembro, a: int)
    requires a in edades <==> a in Edades(todos)
    requires a in edades ==> edades[a] == FilaEdad(todos, a)
    requires a in edades || a == u.edad
    ensures edades[u.edad := Contar(edades, u)][a] == FilaEdad(todos + [u], a)
  {
    FilaEdadSnoc(todos, u, a);
    if a == u.edad {
      var antes := if a in edades then edades[a] else EdadFila(a, 0, 0);
      assert antes == FilaEdad(todos, a) by {
        if a !in edades {
          SplitByTipo(todos, a);
          CountPositive(Edades(todos), a);
        }
      }
    } else {
      assert edades[u.edad := Contar(edades, u)][a] == edades[a];
    }
  }

  lemma EdadesKeys(todos: seq<Miembro>, edades: map<int, EdadFila>, order: seq<int>, a: int)
    requires EdadesInv(todos, edades, order)
    requires a in order
    ensures a in edades && edades[a] == FilaEdad(todos, a)
  {
    assert a in Edades(todos);
  }

  /** Every member is a voter or a candidate: the two counters of an age add up to its count. */
  lemma {:induction false} SplitByTipo(todos: seq<Miembro>, a: int)
    ensures Count(EdadesDe(todos, TipoVotante), a) + Count(EdadesDe(todos, TipoCandidato), a)
         == Count(Edades(todos), a)
  {
    if todos != [] {
      var p := todos[..|todos| - 1];
      var u := todos[|todos| - 1];
      assert todos == p + [u];
      SplitByTipo(p, a);
      EdadesSnoc(p, u, TipoVotante);
      EdadesSnoc(p, u, TipoCandidato);
      CountSnoc(Edades(p), u.edad, a);
      if u.tipo == TipoVotante {
        CountSnoc(EdadesDe(p, TipoVotante), u.edad, a);
        assert EdadesDe(todos, TipoCandidato) == EdadesDe(p, TipoCandidato) + [];
        assert EdadesDe(p, TipoCandidato) + [] == EdadesDe(p, TipoCandidato);
      } else {
        CountSnoc(EdadesDe(p, TipoCandidato), u.edad, a);
        assert EdadesDe(todos, TipoVotante) == EdadesDe(p, TipoVotante) + [];
        assert EdadesDe(p, TipoVotante) + [] == EdadesDe(p, TipoVotante);
      }
    }
  }

  /** The age rows in insertion order have distinct ages, and their counters add up to |todos|. */
  lemma {:induction false} FilasEdadFacts(todos: seq<Miembro>)
    ensures DistinctKeys(FilasEdad(todos), EdadDe)
    ensures SumBy(FilasEdad(todos), PersonasDe) == |todos|
    ensures forall f :: f in FilasEdad(todos) <==> f.edad in Edades(todos) && f == FilaEdad(todos, f.edad)
  {
    var order := Distinct(Edades(todos));
    var filas := FilasEdad(todos);
    forall j | 0 <= j < |order| ensures PersonasDe(filas[j]) == Count(Edades(todos), order[j]) {
      SplitByTipo(todos, order[j]);
    }
    SumByPointwise(filas, PersonasDe, order, k => Count(Edades(todos), k));
    SumCountsIsSumBy(order, Edades(todos), k => Count(Edades(todos), k));
    CountsAddUp(Edades(todos));
    forall f: EdadFila | f.edad in Edades(todos) && f == FilaEdad(todos, f.edad) ensures f in filas {
      var j :| 0 <= j < |order| && order[j] == f.edad;
      assert filas[j] == f;
    }
  }

  /** The dictionary's values listed in key order. */
  function ValoresEdad(edades: map<int, EdadFila>, order: seq<int>): seq<EdadFila>
    requires forall j :: 0 <= j < |order| ==> order[j] in edades
  {
    seq(|order|, j requires 0 <= j < |order| => edades[order[j]])
  }

  /** When the loop ends, `Object.values(edades)` are the age rows in insertion order. */
  lemma EdadesFinal(todos: seq<Miembro>, edades: map<int, EdadFila>, order: seq<int>)
    requires EdadesInv(todos, edades, order)
    ensures forall j :: 0 <= j < |order| ==> order[j] in edades
    ensures ValoresEdad(edades, order) == FilasEdad(todos)
  {
    forall j | 0 <= j < |order| ensures order[j] in edades && edades[order[j]] == FilaEdad(todos, order[j]) {
      EdadesKeys(todos, edades, order, order[j]);
    }
  }

  /** The age rows sorted by age: strictly increasing, exactly the rows, adding up to |todos|. */
  lemma EdadesOrdenadas(todos: seq<Miembro>)
    ensures var r := SortBy(FilasEdad(todos), EdadDe);
      && (forall i, j :: 0 <= i < j < |r| ==> r[i].edad < r[j].edad)
      && (forall f :: f in r <==> f.edad in Edades(todos) && f == FilaEdad(todos, f.edad))
      && SumBy(r, PersonasDe) == |todos|
  {
    var filas := FilasEdad(todos);
    FilasEdadFacts(todos);
    SortByStrict(filas, EdadDe);
    SortByMembers(filas, EdadDe);
    SortBySum(filas, EdadDe, PersonasDe);
  }

  /**
   * The age histogram (`edades`, then `Object.values(edades).sort((a, b) => a.edad - b.edad)`):
   * one row per age seen, ages strictly increasing, each row counting the
   * voters and the candidates of that age, all counters adding up to |todos|.
   */
  method HistogramaEdades(todos: seq<Miembro>) returns (edadData: seq<EdadFila>)
    ensures edadData == SortBy(FilasEdad(todos), EdadDe)
    ensures forall i, j :: 0 <= i < j < |edadData| ==> edadData[i].edad < edadData[j].edad
    ensures forall f :: f in edadData <==> f.edad in Edades(todos) && f == FilaEdad(todos, f.edad)
    ensures SumBy(edadData, PersonasDe) == |todos|
  {
    var edades: map<int, EdadFila> := map[];
    var order: seq<int> := [];
    for i := 0 to |todos|
      invariant EdadesInv(todos[..i], edades, order)
    {
      var u := todos[i];
      EdadesStepAt(todos, i, edades, order);
      if u.edad !in edades {
        order := order + [u.edad];
      }
      edades := edades[u.edad := Contar(edades, u)];
    }
    assert todos[..|todos|] == todos;
    EdadesFinal(todos, edades, order);
    edadData := SortBy(ValoresEdad(edades, order), EdadDe);
    EdadesOrdenadas(todos);
  }

  // ---------------------------------------------------------------- cities

  /** A row of `ubicacionData`. */
  datatype CiudadFila = CiudadFila(name: string, total: nat)

  function TotalDe(f: CiudadFila): int { f.total }

  function MenosTotal(f: CiudadFila): int { -(f.total as int) }

  /** `u.ciudad || "Sin ciudad"`. */
  function ClaveCiudad(u: Miembro): string
  {
    if u.ciudad == "" then "Sin ciudad" else u.ciudad
  }

  /** The city keys of the members, in order. */
  function Ciudades(todos: seq<Miembro>): (r: seq<string>)
    ensures |r| == |todos|
  {
    if todos == [] then [] else Ciudades(todos[..|todos| - 1]) + [ClaveCiudad(todos[|todos| - 1])]
  }

  /** `Object.entries(ciudades).map(([name, total]) => ({ name, total }))`, in insertion order. */
  function FilasCiudad(todos: seq<Miembro>): seq<CiudadFila>
  {
    var order := Distinct(Ciudades(todos));
    seq(|order|, j requires 0 <= j < |order| => CiudadFila(order[j], Count(Ciudades(todos), order[j])))
  }

  lemma CiudadesSnoc(todos: seq<Miembro>, u: Miembro)
    ensures Ciudades(todos + [u]) == Ciudades(todos) + [ClaveCiudad(u)]
  {
    assert (todos + [u])[..|todos|] == todos;
  }

  lemma CiudadesAt(todos: seq<Miembro>, i: nat)
    requires i < |todos|
    ensures Ciudades(todos[..i + 1]) == Ciudades(todos[..i]) + [ClaveCiudad(todos[i])]
  {
    assert todos[..i + 1] == todos[..i] + [todos[i]];
    CiudadesSnoc(todos[..i], todos[i]);
  }

  lemma {:induction false} FilasCiudadFacts(todos: seq<Miembro>)
    ensures NoDup(FilasCiudad(todos))
    ensures SumBy(FilasCiudad(todos), TotalDe) == |todos|
    ensures forall f :: f in FilasCiudad(todos) <==> f.name in Ciudades(todos) && f.total == Count(Ciudades(todos), f.name)
  {
    var order := Distinct(Ciudades(todos));
    var filas := FilasCiudad(todos);
    SumByPointwise(filas, TotalDe, order, k => Count(Ciudades(todos), k));
    SumCountsIsSumBy(order, Ciudades(todos), k => Count(Ciudades(todos), k));
    CountsAddUp(Ciudades(todos));
    forall i, j | 0 <= i < j < |filas| ensures filas[i] != filas[j] {
      assert filas[i].name == order[i] && filas[j].name == order[j];
    }
    forall f: CiudadFila | f.name in Ciudades(todos) && f.total == Count(Ciudades(todos), f.name) ensures f in filas {
      var j :| 0 <= j < |order| && order[j] == f.name;
      assert filas[j] == f;
    }
  }

  /** `Object.entries(ciudades)` as rows, in key order. */
  function ValoresCiudad(ciudades: map<string, nat>, order: seq<string>): seq<CiudadFila>
    requires forall k :: k in order ==> k in ciudades
  {
    seq(|order|, j requires 0 <= j < |order| => CiudadFila(order[j], ciudades[order[j]]))
  }

  /** When the loop ends, the entries of `ciudades` are the city rows in insertion order. */
  lemma CiudadesFinal(todos: seq<Miembro>, ciudades: map<string, nat>, order: seq<string>)
    requires IsTally(Ciudades(todos), ciudades, order)
    ensures forall k :: k in order ==> k in ciudades
    ensures ValoresCiudad(ciudades, order) == FilasCiudad(todos)
  {
  }

  /** The city rows sorted by descending total: exactly the rows, names distinct, adding up to |todos|. */
  lemma CiudadesOrdenadas(todos: seq<Miembro>)
    ensures var r := SortBy(FilasCiudad(todos), MenosTotal);
      && (forall i, j :: 0 <= i < j < |r| ==> r[i].total >= r[j].total)
      && (forall f :: f in r <==> f.name in Ciudades(todos) && f.total == Count(Ciudades(todos), f.name))
      && (forall i, j :: 0 <= i < j < |r| ==> r[i].name != r[j].name)
      && SumBy(r, TotalDe) == |todos|
  {
    var filas := FilasCiudad(todos);
    var r := SortBy(filas, MenosTotal);
    FilasCiudadFacts(todos);
    SortByMembers(filas, MenosTotal);
    SortBySum(filas, MenosTotal, TotalDe);
    SortByNoDup(filas, MenosTotal);
    forall i, j | 0 <= i < j < |r| ensures r[i].name != r[j].name {
      assert r[i] in r && r[j] in r;
    }
  }

  /**
   * The city histogram: `ciudades[key] = (ciudades[key] || 0) + 1` over todos,
   * then sorted by descending total, ties in the order cities were first seen.
   * One row per city, totals non-increasing and adding up to |todos|.
   */
  method HistogramaCiudades(todos: seq<Miembro>) returns (ubicacionData: seq<CiudadFila>)
    ensures ubicacionData == SortBy(FilasCiudad(todos), MenosTotal)
    ensures forall i, j :: 0 <= i < j < |ubicacionData| ==> ubicacionData[i].total >= ubicacionData[j].total
    ensures forall f :: f in ubicacionData <==> f.name in Ciudades(todos) && f.total == Count(Ciudades(todos), f.name)
    ensures forall i, j :: 0 <= i < j < |ubicacionData| ==> ubicacionData[i].name != ubicacionData[j].name
    ensures SumBy(ubicacionData, TotalDe) == |todos|
  {
    var ciudades: map<string, nat> := map[];
    var order: seq<string> := [];
    for i := 0 to |todos|
      invariant IsTally(Ciudades(todos[..i]), ciudades, order)
    {
      var key := ClaveCiudad(todos[i]);
      CiudadesAt(todos, i);
      TallyStep(Ciudades(todos[..i]), key, Ciudades(todos[..i + 1]), ciudades, order);
      ciudades, order := Incrementar(ciudades, key), Anotar(order, ciudades, key);
    }
    assert todos[..|todos|] == todos;
    CiudadesFinal(todos, ciudades, order);
    ubicacionData := SortBy(ValoresCiudad(ciudades, order), MenosTotal);
    CiudadesOrdenadas(todos);
  }

  // ---------------------------------------------------------------- categories

  /** A row of `categoriaData`: the label of a category and the sum of the ratings given in it. */
  datatype CategoriaFila = CategoriaFila(categoria: string, total: int)

  function TotalCategoria(f: CategoriaFila): int { f.total }

  function Valoracion(p: Preferencia): int { p.valoracion }

  /** catalogo[k] is the first category of the catalog numbered c. */
  ghost predicate PrimeraCon(catalogo: seq<Categoria>, c: int, k: int)
  {
    0 <= k < |catalogo| && catalogo[k].numero == c && forall m :: 0 <= m < k ==> catalogo[m].numero != c
  }

  /** At most one position holds the first category numbered c. */
  lemma PrimeraConUnica(catalogo: seq<Categoria>, c: int)
    ensures forall k1, k2 :: PrimeraCon(catalogo, c, k1) && PrimeraCon(catalogo, c, k2) ==> k1 == k2
  {
  }

  /** `catalogo.find(c => c.numero === catId)`. */
  function BuscarCategoria(catalogo: seq<Categoria>, c: int): (r: Option<Categoria>)
    ensures r.None? <==> forall k :: 0 <= k < |catalogo| ==> catalogo[k].numero != c
    ensures r.Some? ==> exists k :: PrimeraCon(catalogo, c, k) && catalogo[k] == r.value
  {
    if catalogo == [] then None
    else if catalogo[0].numero == c then
      assert PrimeraCon(catalogo, c, 0);
      Some(catalogo[0])
    else
      var r := BuscarCategoria(catalogo[1..], c);
      assert r.Some? ==> exists k :: PrimeraCon(catalogo, c, k) && catalogo[k] == r.value by {
        if r.Some? {
          var k :| PrimeraCon(catalogo[1..], c, k) && catalogo[1..][k] == r.value;
          assert PrimeraCon(catalogo, c, k + 1);
        }
      }
      r
  }

  /** `find(...)?.nombre || \`Categoría ${catId}\``. */
  function Etiqueta(catalogo: seq<Categoria>, c: int): (r: string)
    ensures forall k :: PrimeraCon(catalogo, c, k) ==>
              r == if catalogo[k].nombre != "" then catalogo[k].nombre else "Categoría " + IntToString(c)
    ensures (forall k :: 0 <= k < |catalogo| ==> catalogo[k].numero != c) ==> r == "Categoría " + IntToString(c)
  {
    PrimeraConUnica(catalogo, c);
    match BuscarCategoria(catalogo, c)
    case Some(cat) => if cat.nombre != "" then cat.nombre else "Categoría " + IntToString(c)
    case None => "Categoría " + IntToString(c)
  }

  /** The preferences of the voters whose field is an array, in the order the loops visit them. */
  function Prefs(votantes: seq<Votante>): seq<Preferencia>
  {
    if votantes == [] then []
    else Prefs(votantes[..|votantes| - 1]) + votantes[|votantes| - 1].preferencias.GetOr([])
  }

  lemma PrefsSnoc(votantes: seq<Votante>, v: Votante)
    ensures Prefs(votantes + [v]) == Prefs(votantes) + v.preferencias.GetOr([])
  {
    assert (votantes + [v])[..|votantes|] == votantes;
  }

  lemma PrefsAt(votantes: seq<Votante>, i: nat)
    requires i < |votantes|
    ensures votantes[i].preferencias.Some? ==>
              Prefs(votantes[..i + 1]) == Prefs(votantes[..i]) + votantes[i].preferencias.value
    ensures votantes[i].preferencias.None? ==> Prefs(votantes[..i + 1]) == Prefs(votantes[..i])
  {
    assert votantes[..i + 1] == votantes[..i] + [votantes[i]];
    PrefsSnoc(votantes[..i], votantes[i]);
    assert Prefs(votantes[..i]) + [] == Prefs(votantes[..i]);
  }

  /** The category ids of the preferences, in order. */
  function Ids(ps: seq<Preferencia>): (r: seq<int>)
    ensures |r| == |ps|
  {
    if ps == [] then [] else Ids(ps[..|ps| - 1]) + [ps[|ps| - 1].categoriaId]
  }

  /** The sum of the ratings given in category c. */
  function Suma(ps: seq<Preferencia>, c: int): int
  {
    if ps == [] then 0
    else Suma(ps[..|ps| - 1], c) + (if ps[|ps| - 1].categoriaId == c then ps[|ps| - 1].valoracion else 0)
  }

  lemma PrefsStepFacts(ps: seq<Preferencia>, p: Preferencia)
    ensures Ids(ps + [p]) == Ids(ps) + [p.categoriaId]
    ensures forall c :: Suma(ps + [p], c) == Suma(ps, c) + (if p.categoriaId == c then p.valoracion else 0)
  {
    assert (ps + [p])[..|ps|] == ps;
  }

  /**
   * The largest array index plus one: Object.values lists the keys that are
   * array indices (0 <= key < 2^32 - 1) first, ascending, then the other keys
   * in insertion order.
   */
  const LimiteIndice: int := 4294967295

  /** The position class of a numeric key in a JavaScript object's property order. */
  function OrdenPropiedad(c: int): int
  {
    if 0 <= c < LimiteIndice then c else LimiteIndice
  }

  /** The keys of `categorias` in the order Object.values lists them. */
  function IdsCategoria(votantes: seq<Votante>): seq<int>
  {
    SortBy(Distinct(Ids(Prefs(votantes))), OrdenPropiedad)
  }

  function FilaCategoria(catalogo: seq<Categoria>, ps: seq<Preferencia>, c: int): CategoriaFila
  {
    CategoriaFila(Etiqueta(catalogo, c), Suma(ps, c))
  }

  /** The state of `categorias` after the loops have visited the preferences ps. */
  ghost predicate CategoriasInv(catalogo: seq<Categoria>, ps: seq<Preferencia>,
                                categorias: map<int, CategoriaFila>, order: seq<int>)
  {
    && order == Distinct(Ids(ps))
    && (forall c :: c in categorias <==> c in Ids(ps))
    && (forall c :: c in categorias ==> categorias[c] == FilaCategoria(catalogo, ps, c))
  }

  /** The new entry for p's category: `total: (categorias[catId]?.total || 0) + p.valoracion`. */
  function Acumular(catalogo: seq<Categoria>, categorias: map<int, CategoriaFila>, p: Preferencia): CategoriaFila
  {
    var c := p.categoriaId;
    CategoriaFila(Etiqueta(catalogo, c), (if c in categorias then categorias[c].total else 0) + p.valoracion)
  }

  /** One iteration of the inner loop keeps `categorias` in step with the preferences visited. */
  lemma {:induction false} CategoriasStep(catalogo: seq<Categoria>, ps: seq<Preferencia>,
                                          categorias: map<int, CategoriaFila>, order: seq<int>, p: Preferencia)
    requires CategoriasInv(catalogo, ps, categorias, order)
    ensures CategoriasInv(catalogo, ps + [p], categorias[p.categoriaId := Acumular(catalogo, categorias, p)],
                          if p.categoriaId in categorias then order else order + [p.categoriaId])
  {
    var c := p.categoriaId;
    var e := categorias[c := Acumular(catalogo, categorias, p)];
    PrefsStepFacts(ps, p);
    DistinctSnoc(Ids(ps), c);
    assert c in categorias <==> c in Ids(ps);
    forall a ensures a in e <==> a in Ids(ps + [p]) {
      assert a in Ids(ps + [p]) <==> a in Ids(ps) || a == c;
    }
    forall a | a in e ensures e[a] == FilaCategoria(catalogo, ps + [p], a) {
      FilaCategoriaCase(catalogo, ps, categorias, order, p, a);
    }
  }

  lemma FilaCategoriaCase(catalogo: seq<Categoria>, ps: seq<Preferencia>,
                          categorias: map<int, CategoriaFila>, order: seq<int>, p: Preferencia, a: int)
    requires CategoriasInv(catalogo, ps, categorias, order)
    requires a in categorias || a == p.categoriaId
    ensures categorias[p.categoriaId := Acumular(catalogo, categorias, p)][a] == FilaCategoria(catalogo, ps + [p], a)
  {
    PrefsStepFacts(ps, p);
    if a == p.categoriaId {
      if a !in categorias {
        SumaAbsent(ps, a);
      }
    } else {
      assert categorias[p.categoriaId := Acumular(catalogo, categorias, p)][a] == categorias[a];
    }
  }

  lemma CategoriasStepAt(catalogo: seq<Categoria>, base: seq<Preferencia>, prefs: seq<Preferencia>, j: nat,
                         categorias: map<int, CategoriaFila>, order: seq<int>)
    requires j < |prefs|
    requires CategoriasInv(catalogo, base + prefs[..j], categorias, order)
    ensures var c := prefs[j].categoriaId;
      CategoriasInv(catalogo, base + prefs[..j + 1], categorias[c := Acumular(catalogo, categorias, prefs[j])],
                    if c in categorias then order else order + [c])
  {
    var ps := base + prefs[..j];
    assert base + prefs[..j + 1] == ps + [prefs[j]] by {
      assert prefs[..j + 1] == prefs[..j] + [prefs[j]];
    }
    CategoriasStep(catalogo, ps, categorias, order, prefs[j]);
  }

  /** A category no preference names has total 0. */
  lemma {:induction false} SumaAbsent(ps: seq<Preferencia>, c: int)
    requires c !in Ids(ps)
    ensures Suma(ps, c) == 0
  {
    if ps != [] {
      var q := ps[..|ps| - 1];
      assert ps == q + [ps[|ps| - 1]];
      PrefsStepFacts(q, ps[|ps| - 1]);
      SumaAbsent(q, c);
    }
  }

  lemma CategoriasKeys(catalogo: seq<Categoria>, ps: seq<Preferencia>,
                       categorias: map<int, CategoriaFila>, order: seq<int>, c: int)
    requires CategoriasInv(catalogo, ps, categorias, order)
    requires c in order
    ensures c in categorias && categorias[c] == FilaCategoria(catalogo, ps, c)
  {
    assert c in Ids(ps);
  }

  /** Sum of the category totals of the ids ks. */
  function SumaSobre(ks: seq<int>, ps: seq<Preferencia>): int
  {
    if ks == [] then 0 else Suma(ps, ks[0]) + SumaSobre(ks[1..], ps)
  }

  lemma {:induction false} SumaSobreIsSumBy(ks: seq<int>, ps: seq<Preferencia>, f: int -> int)
    requires forall k :: f(k) == Suma(ps, k)
    ensures SumaSobre(ks, ps) == SumBy(ks, f)
  {
    if ks != [] {
      SumaSobreIsSumBy(ks[1..], ps, f);
    }
  }

  lemma {:induction false} SumaSobreConcat(a: seq<int>, b: seq<int>, ps: seq<Preferencia>)
    ensures SumaSobre(a + b, ps) == SumaSobre(a, ps) + SumaSobre(b, ps)
  {
    if a == [] {
      assert a + b == b;
    } else {
      assert (a + b)[1..] == a[1..] + b;
      SumaSobreConcat(a[1..], b, ps);
    }
  }

  /** One more preference raises the sum over ids listing its category once by its rating. */
  lemma {:induction false} SumaSobreSnoc(ks: seq<int>, ps: seq<Preferencia>, p: Preferencia)
    requires NoDup(ks)
    ensures SumaSobre(ks, ps + [p]) == SumaSobre(ks, ps) + (if p.categoriaId in ks then p.valoracion else 0)
  {
    if ks != [] {
      PrefsStepFacts(ps, p);
      assert NoDup(ks[1..]) by {
        forall i, j | 0 <= i < j < |ks[1..]| ensures ks[1..][i] != ks[1..][j] {
          assert ks[1..][i] == ks[i + 1] && ks[1..][j] == ks[j + 1];
        }
      }
      SumaSobreSnoc(ks[1..], ps, p);
      assert p.categoriaId in ks <==> p.categoriaId == ks[0] || p.categoriaId in ks[1..] by {
        assert ks == [ks[0]] + ks[1..];
      }
      if p.categoriaId == ks[0] {
        assert p.categoriaId !in ks[1..] by {
          forall j | 0 <= j < |ks[1..]| ensures ks[1..][j] != p.categoriaId {
            assert ks[1..][j] == ks[j + 1];
          }
        }
      }
    }
  }

  /** Every rating lands in exactly one category: the totals add up to the sum of all ratings. */
  lemma {:induction false} TotalesAddUp(ps: seq<Preferencia>)
    ensures SumaSobre(Distinct(Ids(ps)), ps) == SumBy(ps, Valoracion)
  {
    if ps != [] {
      var q := ps[..|ps| - 1];
      var p := ps[|ps| - 1];
      assert ps == q + [p];
      TotalesAddUp(q);
      PrefsStepFacts(q, p);
      DistinctSnoc(Ids(q), p.categoriaId);
      var d := Distinct(Ids(q));
      SumaSobreSnoc(Distinct(Ids(ps)), q, p);
      SumByConcat(q, [p], Valoracion);
      if p.categoriaId !in Ids(q) {
        SumaSobreConcat(d, [p.categoriaId], q);
        SumaAbsent(q, p.categoriaId);
        assert SumaSobre([p.categoriaId], q) == Suma(q, p.categoriaId) + SumaSobre([], q);
      }
    }
  }

  /**
   * The category ids of `categoriaData`: each id named by a preference exactly
   * once, array-index ids first and ascending, the others in first-seen order.
   */
  lemma IdsCategoriaFacts(votantes: seq<Votante>)
    ensures NoDup(IdsCategoria(votantes))
    ensures forall c :: c in IdsCategoria(votantes) <==> c in Ids(Prefs(votantes))
    ensures SortedBy(IdsCategoria(votantes), OrdenPropiedad)
    ensures WithKey(IdsCategoria(votantes), OrdenPropiedad, LimiteIndice)
         == WithKey(Distinct(Ids(Prefs(votantes))), OrdenPropiedad, LimiteIndice)
  {
    var d := Distinct(Ids(Prefs(votantes)));
    SortByNoDup(d, OrdenPropiedad);
    SortByMembers(d, OrdenPropiedad);
    SortByStable(d, OrdenPropiedad, LimiteIndice);
  }

  /**
   * The category totals (`categorias`, then `Object.values(categorias)`): one
   * row per category id named by a voter's preferences, labelled from the
   * catalog, holding the sum of the ratings given in it; the totals add up to
   * the sum of all ratings.
   */
  method TotalesCategoria(votantes: seq<Votante>, catalogo: seq<Categoria>) returns (categoriaData: seq<CategoriaFila>)
    ensures |categoriaData| == |IdsCategoria(votantes)|
    ensures forall j :: 0 <= j < |categoriaData| ==>
              categoriaData[j] == FilaCategoria(catalogo, Prefs(votantes), IdsCategoria(votantes)[j])
    ensures SumBy(categoriaData, TotalCategoria) == SumBy(Prefs(votantes), Valoracion)
  {
    var categorias: map<int, CategoriaFila> := map[];
    var order: seq<int> := [];
    for i := 0 to |votantes|
      invariant CategoriasInv(catalogo, Prefs(votantes[..i]), categorias, order)
    {
      PrefsAt(votantes, i);
      if votantes[i].preferencias.Some? {
        categorias, order := AcumularPreferencias(catalogo, votantes[i].preferencias.value,
                                                  Prefs(votantes[..i]), categorias, order);
      }
    }
    assert votantes[..|votantes|] == votantes;
    categoriaData := ValoresCategorias(catalogo, Prefs(votantes), categorias, order);
  }

  /** The inner loop: one voter's preferences added to `categorias` in order. */
  method AcumularPreferencias(catalogo: seq<Categoria>, prefs: seq<Preferencia>, ghost base: seq<Preferencia>,
                              categorias0: map<int, CategoriaFila>, order0: seq<int>)
    returns (categorias: map<int, CategoriaFila>, order: seq<int>)
    requires CategoriasInv(catalogo, base, categorias0, order0)
    ensures CategoriasInv(catalogo, base + prefs, categorias, order)
  {
    categorias, order := categorias0, order0;
    assert base + prefs[..0] == base;
    for j := 0 to |prefs|
      invariant CategoriasInv(catalogo, base + prefs[..j], categorias, order)
    {
      var p := prefs[j];
      CategoriasStepAt(catalogo, base, prefs, j, categorias, order);
      if p.categoriaId !in categorias {
        order := order + [p.categoriaId];
      }
      categorias := categorias[p.categoriaId := Acumular(catalogo, categorias, p)];
    }
    assert prefs[..|prefs|] == prefs;
  }

  /** `Object.values(categorias)`: the rows in the object's key order. */
  method ValoresCategorias(catalogo: seq<Categoria>, ghost ps: seq<Preferencia>,
                           categorias: map<int, CategoriaFila>, order: seq<int>)
    returns (categoriaData: seq<CategoriaFila>)
    requires CategoriasInv(catalogo, ps, categorias, order)
    ensures |categoriaData| == |SortBy(Distinct(Ids(ps)), OrdenPropiedad)|
    ensures forall j :: 0 <= j < |categoriaData| ==>
              categoriaData[j] == FilaCategoria(catalogo, ps, SortBy(Distinct(Ids(ps)), OrdenPropiedad)[j])
    ensures SumBy(categoriaData, TotalCategoria) == SumBy(ps, Valoracion)
  {
    var ids := SortBy(order, OrdenPropiedad);
    SortByMembers(order, OrdenPropiedad);
    forall j | 0 <= j < |ids| ensures ids[j] in categorias && categorias[ids[j]] == FilaCategoria(catalogo, ps, ids[j]) {
      CategoriasKeys(catalogo, ps, categorias, order, ids[j]);
    }
    categoriaData := seq(|ids|, j requires 0 <= j < |ids| => categorias[ids[j]]);
    var f := c => Suma(ps, c);
    SumByPointwise(categoriaData, TotalCategoria, ids, f);
    SortBySum(order, OrdenPropiedad, f);
    SumaSobreIsSumBy(order, ps, f);
    TotalesAddUp(ps);
  }

  // ---------------------------------------------------------------- report

  /** The three series the administrator view charts. */
  datatype AdminReport = AdminReport(edadData: seq<EdadFila>, ubicacionData: seq<CiudadFila>,
                                     categoriaData: seq<CategoriaFila>)

  /**
   * `adminData`: the age and city histograms over voters and candidates pooled,
   * and the category totals over the voters' preferences.
   */
  method AdminData(votantes: seq<Votante>, candidatos: seq<Candidato>, catalogo: seq<Categoria>)
    returns (report: AdminReport)
    ensures var todos := Todos(votantes, candidatos);
      && report.edadData == SortBy(FilasEdad(todos), EdadDe)
      && report.ubicacionData == SortBy(FilasCiudad(todos), MenosTotal)
    ensures SumBy(report.edadData, PersonasDe) == |votantes| + |candidatos|
    ensures SumBy(report.ubicacionData, TotalDe) == |votantes| + |candidatos|
    ensures |report.categoriaData| == |IdsCategoria(votantes)|
    ensures forall j :: 0 <= j < |report.categoriaData| ==>
              report.categoriaData[j] == FilaCategoria(catalogo, Prefs(votantes), IdsCategoria(votantes)[j])
    ensures SumBy(report.categoriaData, TotalCategoria) == SumBy(Prefs(votantes), Valoracion)
  {
    var todos := Todos(votantes, candidatos);
    var edadData := HistogramaEdades(todos);
    var ubicacionData := HistogramaCiudades(todos);
    var categoriaData := TotalesCategoria(votantes, catalogo);
    report := AdminReport(edadData, ubicacionData, categoriaData);
  }
}
