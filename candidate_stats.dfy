/**
 * The candidate statistics of Estadisticas.js: the memo `candidateData`.
 * A zero counter is set up for every catalog category, the candidate's own
 * proposals are walked to count votes per category and to collect the set of
 * supporters and the set of proposals with votes, and the voter records of
 * the supporters are tallied by age and by "city, state".
 */
module CandidateStats {
  import opened Wrappers
  import opened Seqs
  import opened Sorting
  import opened Tally
  import opened Text
  import opened Records

  // ---------------------------------------------------------------- what the loops compute

  /** The names of the catalog categories, in order. */
  function Nombres(catalogo: seq<Categoria>): (r: seq<string>)
    ensures |r| == |catalogo|
  {
    if catalogo == [] then [] else Nombres(catalogo[..|catalogo| - 1]) + [catalogo[|catalogo| - 1].nombre]
  }

  /** p belongs to candidate yo: `propuesta.id_politico === miCandidato._id`. */
  predicate EsPropia(p: Propuesta, yo: string)
  {
    p.idPolitico == yo
  }

  /** The proposals of candidate yo, in order. */
  function Propias(props: seq<Propuesta>, yo: string): seq<Propuesta>
  {
    if props == [] then []
    else
      var p := props[|props| - 1];
      Propias(props[..|props| - 1], yo) + (if EsPropia(p, yo) then [p] else [])
  }

  /** The votes cast on yo's proposals, in order (a voter may occur several times). */
  function VotosPropios(props: seq<Propuesta>, yo: string): seq<string>
  {
    if props == [] then []
    else
      var p := props[|props| - 1];
      VotosPropios(props[..|props| - 1], yo) + (if EsPropia(p, yo) then VotosDe(p) else [])
  }

  /** The number of votes on yo's proposals of category n. */
  function VotosCategoria(props: seq<Propuesta>, yo: string, n: string): nat
  {
    if props == [] then 0
    else
      var p := props[|props| - 1];
      VotosCategoria(props[..|props| - 1], yo, n) + (if EsPropia(p, yo) && p.categoria == n then |VotosDe(p)| else 0)
  }

  function ConjuntoDe(s: seq<string>): set<string>
  {
    set v | v in s
  }

  /** `misVotantesIds`: the ids of the voters who voted for one of yo's proposals. */
  function Apoyos(props: seq<Propuesta>, yo: string): set<string>
  {
    if props == [] then {}
    else
      var p := props[|props| - 1];
      Apoyos(props[..|props| - 1], yo) + (if EsPropia(p, yo) then ConjuntoDe(VotosDe(p)) else {})
  }

  /** `propuestasConVotos`: the ids of yo's proposals with at least one vote. */
  function ConVotos(props: seq<Propuesta>, yo: string): set<string>
  {
    if props == [] then {}
    else
      var p := props[|props| - 1];
      ConVotos(props[..|props| - 1], yo) + (if EsPropia(p, yo) && |VotosDe(p)| > 0 then {p.id} else {})
  }

  lemma PropuestasSnoc(props: seq<Propuesta>, p: Propuesta, yo: string)
    ensures Propias(props + [p], yo) == Propias(props, yo) + (if EsPropia(p, yo) then [p] else [])
    ensures VotosPropios(props + [p], yo) == VotosPropios(props, yo) + (if EsPropia(p, yo) then VotosDe(p) else [])
    ensures forall n :: VotosCategoria(props + [p], yo, n)
                     == VotosCategoria(props, yo, n) + (if EsPropia(p, yo) && p.categoria == n then |VotosDe(p)| else 0)
    ensures Apoyos(props + [p], yo) == Apoyos(props, yo) + (if EsPropia(p, yo) then ConjuntoDe(VotosDe(p)) else {})
    ensures ConVotos(props + [p], yo) == ConVotos(props, yo) + (if EsPropia(p, yo) && |VotosDe(p)| > 0 then {p.id} else {})
  {
    assert (props + [p])[..|props|] == props;
  }

  /** The supporter set is exactly the set of votes on yo's proposals. */
  lemma {:induction false} ApoyosSonVotos(props: seq<Propuesta>, yo: string)
    ensures Apoyos(props, yo) == ConjuntoDe(VotosPropios(props, yo))
  {
    if props != [] {
      var q := props[..|props| - 1];
      var p := props[|props| - 1];
      assert props == q + [p];
      ApoyosSonVotos(q, yo);
      PropuestasSnoc(q, p, yo);
    }
  }

  /** A voter id seen several times counts once: at most as many supporters as votes. */
  lemma ApoyosAcotados(props: seq<Propuesta>, yo: string)
    ensures |Apoyos(props, yo)| <= |VotosPropios(props, yo)|
  {
    ApoyosSonVotos(props, yo);
    CardConjunto(VotosPropios(props, yo));
  }

  lemma {:induction false} CardConjunto(s: seq<string>)
    ensures |ConjuntoDe(s)| <= |s|
  {
    if s != [] {
      var q := s[..|s| - 1];
      assert s == q + [s[|s| - 1]];
      assert ConjuntoDe(s) == ConjuntoDe(q) + {s[|s| - 1]};
      CardConjunto(q);
    }
  }

  /** At most as many proposals with votes as proposals of the candidate. */
  lemma {:induction false} ConVotosAcotados(props: seq<Propuesta>, yo: string)
    ensures |ConVotos(props, yo)| <= |Propias(props, yo)|
  {
    if props != [] {
      var q := props[..|props| - 1];
      var p := props[|props| - 1];
      assert props == q + [p];
      ConVotosAcotados(q, yo);
      PropuestasSnoc(q, p, yo);
    }
  }

  /** A proposal id is counted exactly when some proposal of yo with that id has a vote. */
  lemma {:induction false} ConVotosMiembros(props: seq<Propuesta>, yo: string, x: string)
    ensures x in ConVotos(props, yo) <==>
            exists k :: 0 <= k < |props| && EsPropia(props[k], yo) && |VotosDe(props[k])| > 0 && props[k].id == x
  {
    if props != [] {
      var q := props[..|props| - 1];
      var p := props[|props| - 1];
      assert props == q + [p];
      ConVotosMiembros(q, yo, x);
      PropuestasSnoc(q, p, yo);
      if x in ConVotos(q, yo) {
        var k :| 0 <= k < |q| && EsPropia(q[k], yo) && |VotosDe(q[k])| > 0 && q[k].id == x;
        assert props[k] == q[k];
      }
      if exists k :: 0 <= k < |props| && EsPropia(props[k], yo) && |VotosDe(props[k])| > 0 && props[k].id == x {
        var k :| 0 <= k < |props| && EsPropia(props[k], yo) && |VotosDe(props[k])| > 0 && props[k].id == x;
        if k < |q| {
          assert q[k] == props[k];
        }
      }
    }
  }

  /** Proposals of other candidates contribute nothing. */
  lemma {:induction false} AjenasNoCuentan(props: seq<Propuesta>, yo: string)
    requires forall k :: 0 <= k < |props| ==> !EsPropia(props[k], yo)
    ensures Apoyos(props, yo) == {} && ConVotos(props, yo) == {}
    ensures forall n :: VotosCategoria(props, yo, n) == 0
  {
    if props != [] {
      var q := props[..|props| - 1];
      assert props == q + [props[|props| - 1]];
      AjenasNoCuentan(q, yo);
      PropuestasSnoc(q, props[|props| - 1], yo);
    }
  }

  /** The location label: `${ciudad || 'Sin ciudad'}, ${estado || 'Sin estado'}`. */
  function Lugar(p: Perfil): string
  {
    (if p.ciudad == "" then "Sin ciudad" else p.ciudad) + ", " + (if p.estado == "" then "Sin estado" else p.estado)
  }

  /** The ages of the voter records whose id is in ids, in order. */
  function EdadesApoyo(votantes: seq<Votante>, ids: set<string>): seq<int>
  {
    if votantes == [] then []
    else
      var v := votantes[|votantes| - 1];
      EdadesApoyo(votantes[..|votantes| - 1], ids) + (if v.perfil.id in ids then [v.perfil.edad] else [])
  }

  /** The location labels of the voter records whose id is in ids, in order. */
  function LugaresApoyo(votantes: seq<Votante>, ids: set<string>): seq<string>
  {
    if votantes == [] then []
    else
      var v := votantes[|votantes| - 1];
      LugaresApoyo(votantes[..|votantes| - 1], ids) + (if v.perfil.id in ids then [Lugar(v.perfil)] else [])
  }

  /** Both histograms count the same records: one per voter record whose id is in ids. */
  lemma {:induction false} MismosRegistros(votantes: seq<Votante>, ids: set<string>)
    ensures |EdadesApoyo(votantes, ids)| == |LugaresApoyo(votantes, ids)| <= |votantes|
  {
    if votantes != [] {
      MismosRegistros(votantes[..|votantes| - 1], ids);
    }
  }

  lemma ApoyoAt(votantes: seq<Votante>, ids: set<string>, i: nat)
    requires i < |votantes|
    ensures votantes[i].perfil.id in ids ==>
              && EdadesApoyo(votantes[..i + 1], ids) == EdadesApoyo(votantes[..i], ids) + [votantes[i].perfil.edad]
              && LugaresApoyo(votantes[..i + 1], ids) == LugaresApoyo(votantes[..i], ids) + [Lugar(votantes[i].perfil)]
    ensures votantes[i].perfil.id !in ids ==>
              && EdadesApoyo(votantes[..i + 1], ids) == EdadesApoyo(votantes[..i], ids)
              && LugaresApoyo(votantes[..i + 1], ids) == LugaresApoyo(votantes[..i], ids)
  {
    assert votantes[..i + 1][..i] == votantes[..i];
    assert EdadesApoyo(votantes[..i], ids) + [] == EdadesApoyo(votantes[..i], ids);
    assert LugaresApoyo(votantes[..i], ids) + [] == LugaresApoyo(votantes[..i], ids);
  }

  // ---------------------------------------------------------------- the loops

  /** `rawData.categorias.forEach(cat => votosPorCategoria[cat.nombre] = { votos: 0 })`. */
  method IniciarVotos(catalogo: seq<Categoria>) returns (votos: map<string, nat>, order: seq<string>)
    ensures order == Distinct(Nombres(catalogo))
    ensures forall n :: n in votos <==> n in Nombres(catalogo)
    ensures forall n :: n in votos ==> votos[n] == 0
  {
    votos, order := map[], [];
    for i := 0 to |catalogo|
      invariant order == Distinct(Nombres(catalogo[..i]))
      invariant forall n :: n in votos <==> n in Nombres(catalogo[..i])
      invariant forall n :: n in votos ==> votos[n] == 0
    {
      var nombre := catalogo[i].nombre;
      assert catalogo[..i + 1][..i] == catalogo[..i];
      assert Nombres(catalogo[..i + 1]) == Nombres(catalogo[..i]) + [nombre];
      DistinctSnoc(Nombres(catalogo[..i]), nombre);
      if nombre !in votos {
        order := order + [nombre];
      }
      votos := votos[nombre := 0];
    }
    assert catalogo[..|catalogo|] == catalogo;
  }

  /**
   * `propuesta.votos?.forEach(...)` for one proposal: each vote adds one to
   * the proposal's category when it is a catalog category, and its voter to
   * the set.
   */
  method RegistrarVotos(p: Propuesta, votos0: map<string, nat>, ids0: set<string>)
    returns (votos: map<string, nat>, ids: set<string>)
    ensures forall n :: n in votos <==> n in votos0
    ensures forall n :: n in votos ==> votos[n] == votos0[n] + (if n == p.categoria then |VotosDe(p)| else 0)
    ensures ids == ids0 + ConjuntoDe(VotosDe(p))
  {
    votos, ids := votos0, ids0;
    var vs := VotosDe(p);
    for k := 0 to |vs|
      invariant forall n :: n in votos <==> n in votos0
      invariant forall n :: n in votos ==> votos[n] == votos0[n] + (if n == p.categoria then k else 0)
      invariant ids == ids0 + ConjuntoDe(vs[..k])
    {
      if p.categoria in votos {
        votos := votos[p.categoria := votos[p.categoria] + 1];
      }
      assert vs[..k + 1] == vs[..k] + [vs[k]];
      assert ConjuntoDe(vs[..k + 1]) == ConjuntoDe(vs[..k]) + {vs[k]};
      ids := ids + {vs[k]};
    }
    assert vs[..|vs|] == vs;
  }

  /**
   * The walk over `misPropuestas`: only yo's proposals count; the category
   * counters end as the votes per category, the sets as the supporters and
   * the proposals with votes.
   */
  method ProcesarPropuestas(props: seq<Propuesta>, yo: string, votos0: map<string, nat>)
    returns (votos: map<string, nat>, ids: set<string>, conVotos: set<string>)
    requires forall n :: n in votos0 ==> votos0[n] == 0
    ensures forall n :: n in votos <==> n in votos0
    ensures forall n :: n in votos ==> votos[n] == VotosCategoria(props, yo, n)
    ensures ids == Apoyos(props, yo)
    ensures conVotos == ConVotos(props, yo)
  {
    votos, ids, conVotos := votos0, {}, {};
    for i := 0 to |props|
      invariant forall n :: n in votos <==> n in votos0
      invariant forall n :: n in votos ==> votos[n] == VotosCategoria(props[..i], yo, n)
      invariant ids == Apoyos(props[..i], yo)
      invariant conVotos == ConVotos(props[..i], yo)
    {
      var p := props[i];
      assert props[..i + 1] == props[..i] + [p];
      PropuestasSnoc(props[..i], p, yo);
      if p.idPolitico == yo {
        if |VotosDe(p)| > 0 {
          conVotos := conVotos + {p.id};
        }
        votos, ids := RegistrarVotos(p, votos, ids);
      }
    }
    assert props[..|props|] == props;
  }

  /**
   * The walk over `rawData.votantes`: each record whose id is a supporter's is
   * counted under its age and under its location label.
   */
  method Demografia(votantes: seq<Votante>, ids: set<string>)
    returns (edades: map<int, nat>, ordenEdades: seq<int>, lugares: map<string, nat>, ordenLugares: seq<string>)
    ensures IsTally(EdadesApoyo(votantes, ids), edades, ordenEdades)
    ensures IsTally(LugaresApoyo(votantes, ids), lugares, ordenLugares)
  {
    edades, ordenEdades, lugares, ordenLugares := map[], [], map[], [];
    for i := 0 to |votantes|
      invariant IsTally(EdadesApoyo(votantes[..i], ids), edades, ordenEdades)
      invariant IsTally(LugaresApoyo(votantes[..i], ids), lugares, ordenLugares)
    {
      var v := votantes[i];
      ApoyoAt(votantes, ids, i);
      if v.perfil.id in ids {
        var edad := v.perfil.edad;
        TallyStep(EdadesApoyo(votantes[..i], ids), edad, EdadesApoyo(votantes[..i + 1], ids), edades, ordenEdades);
        edades, ordenEdades := Incrementar(edades, edad), Anotar(ordenEdades, edades, edad);
        var ubicacion := Lugar(v.perfil);
        TallyStep(LugaresApoyo(votantes[..i], ids), ubicacion, LugaresApoyo(votantes[..i + 1], ids), lugares, ordenLugares);
        lugares, ordenLugares := Incrementar(lugares, ubicacion), Anotar(ordenLugares, lugares, ubicacion);
      }
    }
    assert votantes[..|votantes|] == votantes;
  }

  // ---------------------------------------------------------------- formatting for the charts

  /** An entry of `votosPorCategoriaData`. */
  datatype CategoriaVotos = CategoriaVotos(categoria: string, votos: nat)

  predicate TieneVotos(c: CategoriaVotos) { c.votos > 0 }

  function MenosVotos(c: CategoriaVotos): int { -(c.votos as int) }

  /** `Object.values(votosPorCategoria)`: one entry per key, in key order. */
  function FilasVotos(votos: map<string, nat>, order: seq<string>): seq<CategoriaVotos>
    requires forall n :: n in order ==> n in votos
  {
    seq(|order|, j requires 0 <= j < |order| => CategoriaVotos(order[j], votos[order[j]]))
  }

  lemma FilasVotosFacts(votos: map<string, nat>, order: seq<string>)
    requires forall n :: n in order ==> n in votos
    requires NoDup(order)
    ensures NoDup(FilasVotos(votos, order))
    ensures forall c :: c in FilasVotos(votos, order) <==> c.categoria in order && c.votos == votos[c.categoria]
  {
    var filas := FilasVotos(votos, order);
    forall i, j | 0 <= i < j < |filas| ensures filas[i] != filas[j] {
      assert filas[i].categoria == order[i] && filas[j].categoria == order[j];
    }
    forall c: CategoriaVotos | c.categoria in order && c.votos == votos[c.categoria] ensures c in filas {
      var j :| 0 <= j < |order| && order[j] == c.categoria;
      assert filas[j] == c;
    }
  }

  /** Rows without repetitions, each carrying its category's count, name each category once. */
  lemma CategoriasUnicas(r: seq<CategoriaVotos>, votos: map<string, nat>)
    requires NoDup(r)
    requires forall c :: c in r ==> c.categoria in votos && c.votos == votos[c.categoria]
    ensures forall i, j :: 0 <= i < j < |r| ==> r[i].categoria != r[j].categoria
  {
    forall i, j | 0 <= i < j < |r| ensures r[i].categoria != r[j].categoria {
      assert r[i] in r && r[j] in r;
    }
  }

  /** `Object.values(votosPorCategoria).filter(item => item.votos > 0).sort((a, b) => b.votos - a.votos)`. */
  function FormatoVotos(votos: map<string, nat>, order: seq<string>): (r: seq<CategoriaVotos>)
    requires forall n :: n in order ==> n in votos
    requires NoDup(order)
    ensures forall c :: c in r <==> c.categoria in order && c.votos == votos[c.categoria] && c.votos > 0
    ensures forall i, j :: 0 <= i < j < |r| ==> r[i].categoria != r[j].categoria
    ensures forall i, j :: 0 <= i < j < |r| ==> r[i].votos >= r[j].votos
  {
    var conVotos := Filter(FilasVotos(votos, order), TieneVotos);
    FilasVotosFacts(votos, order);
    FilterNoDup(FilasVotos(votos, order), TieneVotos);
    SortByNoDup(conVotos, MenosVotos);
    SortByMembers(conVotos, MenosVotos);
    CategoriasUnicas(SortBy(conVotos, MenosVotos), votos);
    SortBy(conVotos, MenosVotos)
  }

  /** Categories with the same count keep the dictionary's key order. */
  lemma EmpatesVotos(votos: map<string, nat>, order: seq<string>, k: int)
    requires forall n :: n in order ==> n in votos
    requires NoDup(order)
    ensures WithKey(FormatoVotos(votos, order), MenosVotos, k)
         == WithKey(Filter(FilasVotos(votos, order), TieneVotos), MenosVotos, k)
  {
    SortByStable(Filter(FilasVotos(votos, order), TieneVotos), MenosVotos, k);
  }

  /** An entry of `edadesVotantesData`. */
  datatype EdadPorcion = EdadPorcion(name: string, value: nat, edad: int)

  function EdadDe(x: EdadPorcion): int { x.edad }

  function ValorEdad(x: EdadPorcion): int { x.value }

  /**
   * The slice for age e counted n times: name `${edad} años`; its `edad` is
   * `parseInt` of the key, which is e again (Text.ParseIntToString).
   */
  function EdadPorcionDe(e: int, n: nat): EdadPorcion
  {
    EdadPorcion(IntToString(e) + " años", n, e)
  }

  /** `Object.entries(edadesVotantes).map(...).sort((a, b) => a.edad - b.edad)`. */
  function FormatoEdades(edades: map<int, nat>, order: seq<int>): (r: seq<EdadPorcion>)
    requires forall e :: e in order ==> e in edades
    requires NoDup(order)
    ensures forall x :: x in r <==> x.edad in order && x == EdadPorcionDe(x.edad, edades[x.edad])
    ensures forall i, j :: 0 <= i < j < |r| ==> r[i].edad < r[j].edad
  {
    var filas := seq(|order|, j requires 0 <= j < |order| => EdadPorcionDe(order[j], edades[order[j]]));
    SortByMembers(filas, EdadDe);
    assert DistinctKeys(filas, EdadDe);
    SortByStrict(filas, EdadDe);
    assert forall x :: x in filas <==> x.edad in order && x == EdadPorcionDe(x.edad, edades[x.edad]) by {
      forall x: EdadPorcion | x.edad in order && x == EdadPorcionDe(x.edad, edades[x.edad]) ensures x in filas {
        var j :| 0 <= j < |order| && order[j] == x.edad;
        assert filas[j] == x;
      }
    }
    SortBy(filas, EdadDe)
  }

  /** An entry of `ubicacionVotantesData`. */
  datatype Porcion = Porcion(name: string, value: nat)

  function ValorLugar(x: Porcion): int { x.value }

  function MenosValor(x: Porcion): int { -(x.value as int) }

  /** `Object.entries(ubicacionVotantes).map(([name, value]) => ({ name, value }))`, in key order. */
  function FilasLugar(lugares: map<string, nat>, order: seq<string>): seq<Porcion>
    requires forall n :: n in order ==> n in lugares
  {
    seq(|order|, j requires 0 <= j < |order| => Porcion(order[j], lugares[order[j]]))
  }

  lemma FilasLugarFacts(lugares: map<string, nat>, order: seq<string>)
    requires forall n :: n in order ==> n in lugares
    requires NoDup(order)
    ensures NoDup(FilasLugar(lugares, order))
    ensures forall x :: x in FilasLugar(lugares, order) <==> x.name in order && x.value == lugares[x.name]
  {
    var filas := FilasLugar(lugares, order);
    forall i, j | 0 <= i < j < |filas| ensures filas[i] != filas[j] {
      assert filas[i].name == order[i] && filas[j].name == order[j];
    }
    forall x: Porcion | x.name in order && x.value == lugares[x.name] ensures x in filas {
      var j :| 0 <= j < |order| && order[j] == x.name;
      assert filas[j] == x;
    }
  }

  /** Slices without repetitions, each carrying its place's count, name each place once. */
  lemma LugaresUnicos(r: seq<Porcion>, lugares: map<string, nat>)
    requires NoDup(r)
    requires forall x :: x in r ==> x.name in lugares && x.value == lugares[x.name]
    ensures forall i, j :: 0 <= i < j < |r| ==> r[i].name != r[j].name
  {
    forall i, j | 0 <= i < j < |r| ensures r[i].name != r[j].name {
      assert r[i] in r && r[j] in r;
    }
  }

  /** `Object.entries(ubicacionVotantes).map(...).sort((a, b) => b.value - a.value)`. */
  function FormatoLugares(lugares: map<string, nat>, order: seq<string>): (r: seq<Porcion>)
    requires forall n :: n in order ==> n in lugares
    requires NoDup(order)
    ensures forall x :: x in r <==> x.name in order && x.value == lugares[x.name]
    ensures forall i, j :: 0 <= i < j < |r| ==> r[i].name != r[j].name
    ensures forall i, j :: 0 <= i < j < |r| ==> r[i].value >= r[j].value
  {
    FilasLugarFacts(lugares, order);
    SortByNoDup(FilasLugar(lugares, order), MenosValor);
    SortByMembers(FilasLugar(lugares, order), MenosValor);
    LugaresUnicos(SortBy(FilasLugar(lugares, order), MenosValor), lugares);
    SortBy(FilasLugar(lugares, order), MenosValor)
  }

  /** Places with the same count keep the dictionary's key order. */
  lemma EmpatesLugares(lugares: map<string, nat>, order: seq<string>, k: int)
    requires forall n :: n in order ==> n in lugares
    requires NoDup(order)
    ensures WithKey(FormatoLugares(lugares, order), MenosValor, k) == WithKey(FilasLugar(lugares, order), MenosValor, k)
  {
    SortByStable(FilasLugar(lugares, order), MenosValor, k);
  }

  /** The age slices of a tally of s add up to |s|. */
  lemma FormatoEdadesSuma(s: seq<int>, edades: map<int, nat>, order: seq<int>)
    requires IsTally(s, edades, order)
    ensures SumBy(FormatoEdades(edades, order), ValorEdad) == |s|
  {
    var filas := seq(|order|, j requires 0 <= j < |order| => EdadPorcionDe(order[j], edades[order[j]]));
    var f := k => Count(s, k);
    SortBySum(filas, EdadDe, ValorEdad);
    SumByPointwise(filas, ValorEdad, order, f);
    SumCountsIsSumBy(order, s, f);
    CountsAddUp(s);
  }

  /** The location slices of a tally of s add up to |s|. */
  lemma FormatoLugaresSuma(s: seq<string>, lugares: map<string, nat>, order: seq<string>)
    requires IsTally(s, lugares, order)
    ensures SumBy(FormatoLugares(lugares, order), ValorLugar) == |s|
  {
    var filas := FilasLugar(lugares, order);
    var f := k => Count(s, k);
    SortBySum(filas, MenosValor, ValorLugar);
    SumByPointwise(filas, ValorLugar, order, f);
    SumCountsIsSumBy(order, s, f);
    CountsAddUp(s);
  }

  /**
   * `Math.min(100, (votantesUnicos / totalVotantes) * 100)` when there are
   * voters, 0 otherwise (the two-decimal rounding of toFixed is left out).
   */
  function Porcentaje(unicos: nat, total: nat): (r: real)
    ensures 0.0 <= r <= 100.0
    ensures total == 0 ==> r == 0.0
  {
    if total > 0 then
      var p := (unicos as real / total as real) * 100.0;
      if p < 100.0 then p else 100.0
    else 0.0
  }

  /** The clamp never bites when there are no more supporters than voters. */
  lemma PorcentajeExacto(unicos: nat, total: nat)
    requires 0 < total && unicos <= total
    ensures Porcentaje(unicos, total) == (unicos as real / total as real) * 100.0
  {
    assert unicos as real / total as real <= 1.0;
  }

  function IdsVotantes(votantes: seq<Votante>): set<string>
  {
    set v | v in votantes :: v.perfil.id
  }

  /** Supporters who all have a voter record are no more than the voter records. */
  lemma ApoyosRegistrados(props: seq<Propuesta>, yo: string, votantes: seq<Votante>)
    requires Apoyos(props, yo) <= IdsVotantes(votantes)
    ensures |Apoyos(props, yo)| <= |votantes|
    ensures Porcentaje(|Apoyos(props, yo)|, |votantes|) ==
            if votantes == [] then 0.0 else (|Apoyos(props, yo)| as real / |votantes| as real) * 100.0
  {
    CardIds(votantes);
    SetSizeMono(Apoyos(props, yo), IdsVotantes(votantes));
    if votantes != [] {
      PorcentajeExacto(|Apoyos(props, yo)|, |votantes|);
    }
  }

  lemma SetSizeMono(a: set<string>, b: set<string>)
    requires a <= b
    ensures |a| <= |b|
  {
    assert b == a + (b - a);
  }

  lemma {:induction false} CardIds(votantes: seq<Votante>)
    ensures |IdsVotantes(votantes)| <= |votantes|
  {
    if votantes != [] {
      var q := votantes[..|votantes| - 1];
      assert votantes == q + [votantes[|votantes| - 1]];
      assert IdsVotantes(votantes) == IdsVotantes(q) + {votantes[|votantes| - 1].perfil.id};
      CardIds(q);
    }
  }

  // ---------------------------------------------------------------- the report

  /** The object `candidateData` returns. */
  datatype CandidateReport = CandidateReport(
    votosPorCategoria: seq<CategoriaVotos>,
    porcentajeVotantes: real,
    edadesVotantes: seq<EdadPorcion>,
    ubicacionVotantes: seq<Porcion>,
    totalVotantes: nat,
    misVotantes: nat,
    misPropuestas: nat,
    propuestasConVotos: nat,
    tieneDatos: bool)

  /**
   * `candidateData`: None without a candidate record, a voter list or a
   * catalog (an absent proposal list is read as empty); otherwise
   * the per-category vote counts of the candidate's own proposals, the
   * supporter count and percentage, and the supporters' age and location
   * histograms.
   */
  method CandidateData(miCandidato: Option<string>, votantes: Option<seq<Votante>>,
                       categorias: Option<seq<Categoria>>, misPropuestas: seq<Propuesta>)
    returns (r: Option<CandidateReport>)
    ensures r.None? <==> miCandidato.None? || votantes.None? || categorias.None?
    ensures r.Some? ==>
      var yo := miCandidato.value;
      var rep := r.value;
      && (forall c :: c in rep.votosPorCategoria <==>
            c.categoria in Nombres(categorias.value) && c.votos == VotosCategoria(misPropuestas, yo, c.categoria)
            && c.votos > 0)
      && (forall i, j :: 0 <= i < j < |rep.votosPorCategoria| ==>
            rep.votosPorCategoria[i].categoria != rep.votosPorCategoria[j].categoria)
      && (forall i, j :: 0 <= i < j < |rep.votosPorCategoria| ==>
            rep.votosPorCategoria[i].votos >= rep.votosPorCategoria[j].votos)
      && rep.totalVotantes == |votantes.value|
      && rep.misVotantes == |Apoyos(misPropuestas, yo)|
      && rep.misPropuestas == |misPropuestas|
      && rep.propuestasConVotos == |ConVotos(misPropuestas, yo)|
      && (rep.tieneDatos <==> rep.misVotantes > 0)
      && rep.porcentajeVotantes == Porcentaje(rep.misVotantes, rep.totalVotantes)
    ensures r.Some? ==>
      var ids := Apoyos(misPropuestas, miCandidato.value);
      var s := EdadesApoyo(votantes.value, ids);
      var rep := r.value;
      && (forall x :: x in rep.edadesVotantes <==> x.edad in s && x == EdadPorcionDe(x.edad, Count(s, x.edad)))
      && (forall i, j :: 0 <= i < j < |rep.edadesVotantes| ==> rep.edadesVotantes[i].edad < rep.edadesVotantes[j].edad)
      && SumBy(rep.edadesVotantes, ValorEdad) == |s|
    ensures r.Some? ==>
      var ids := Apoyos(misPropuestas, miCandidato.value);
      var s := LugaresApoyo(votantes.value, ids);
      var rep := r.value;
      && (forall x :: x in rep.ubicacionVotantes <==> x.name in s && x.value == Count(s, x.name))
      && (forall i, j :: 0 <= i < j < |rep.ubicacionVotantes| ==>
            rep.ubicacionVotantes[i].name != rep.ubicacionVotantes[j].name)
      && (forall i, j :: 0 <= i < j < |rep.ubicacionVotantes| ==>
            rep.ubicacionVotantes[i].value >= rep.ubicacionVotantes[j].value)
      && SumBy(rep.ubicacionVotantes, ValorLugar) == |s|
  {
    if miCandidato.None? || votantes.None? || categorias.None? {
      return None;
    }
    var yo := miCandidato.value;
    var votantes := votantes.value;
    var votos0, orden := IniciarVotos(categorias.value);
    var votos, ids, conVotos := ProcesarPropuestas(misPropuestas, yo, votos0);
    var edades, ordenEdades, lugares, ordenLugares := Demografia(votantes, ids);
    var porCategoria := FormatoVotos(votos, orden);
    var porEdad := FormatoEdades(edades, ordenEdades);
    var porLugar := FormatoLugares(lugares, ordenLugares);
    FormatoEdadesSuma(EdadesApoyo(votantes, ids), edades, ordenEdades);
    FormatoLugaresSuma(LugaresApoyo(votantes, ids), lugares, ordenLugares);
    var totalVotantes := |votantes|;
    var votantesUnicos := |ids|;
    r := Some(CandidateReport(porCategoria, Porcentaje(votantesUnicos, totalVotantes), porEdad, porLugar,
                              totalVotantes, votantesUnicos, |misPropuestas|, |conVotos|, votantesUnicos > 0));
  }
}
