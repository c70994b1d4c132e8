/**
 * The questionnaire state of Preferencias.js. The answers object maps the
 * key "{categoria}-{pregunta}" to a rating or null; it is modelled as its
 * list of entries in key order (all keys contain "-", so a JavaScript object
 * lists them in insertion order).
 */
module Preferencias {
  import opened Wrappers
  import opened Seqs
  import opened Tally
  import opened Text
  import opened Records

  /** One answer: valor None is null, a question not answered yet. */
  datatype Entrada = Entrada(clave: string, valor: Option<int>)

  /** The `respuestas` object, entry by entry in key order. */
  type Respuestas = seq<Entrada>

  /** `Object.keys(r)`. */
  function Claves(r: Respuestas): (ks: seq<string>)
    ensures |ks| == |r|
    ensures forall i :: 0 <= i < |r| ==> ks[i] == r[i].clave
  {
    if r == [] then [] else [r[0].clave] + Claves(r[1..])
  }

  /** `r[k]`: None when k is not a key, Some(null) or Some(rating) otherwise. */
  function Buscar(r: Respuestas, k: string): (v: Option<Option<int>>)
    ensures v.Some? <==> k in Claves(r)
    ensures v.Some? ==> Entrada(k, v.value) in r
  {
    if r == [] then None
    else if r[0].clave == k then Some(r[0].valor)
    else Buscar(r[1..], k)
  }

  /** `{ ...r, [k]: v }`: an existing key keeps its place and takes v, a new key goes last. */
  function Poner(r: Respuestas, k: string, v: Option<int>): (r2: Respuestas)
    ensures Claves(r2) == if k in Claves(r) then Claves(r) else Claves(r) + [k]
    ensures forall k2 :: Buscar(r2, k2) == if k2 == k then Some(v) else Buscar(r, k2)
    ensures forall e :: e in r2 ==> e in r || e == Entrada(k, v)
  {
    if r == [] then [Entrada(k, v)]
    else if r[0].clave == k then
      var r2 := [Entrada(k, v)] + r[1..];
      assert r2[1..] == r[1..];
      r2
    else
      var rest := Poner(r[1..], k, v);
      var r2 := [r[0]] + rest;
      assert r2[1..] == rest;
      assert Claves(r) == [r[0].clave] + Claves(r[1..]);
      r2
  }

  /** The key `${categoria}-${pregunta}`. */
  function Clave(categoria: int, pregunta: int): string
  {
    IntToString(categoria) + "-" + IntToString(pregunta)
  }

  // ---------------------------------------------------------------- initial answers

  /** The keys of one category's questions, by question index. */
  function ClavesCategoria(cat: Categoria): seq<string>
  {
    seq(|cat.preguntas|, q requires 0 <= q < |cat.preguntas| => Clave(cat.numero, q))
  }

  /** The keys the nested loops visit, in order. */
  function ClavesIniciales(catalogo: seq<Categoria>): seq<string>
  {
    if catalogo == [] then []
    else ClavesIniciales(catalogo[..|catalogo| - 1]) + ClavesCategoria(catalogo[|catalogo| - 1])
  }

  lemma ClavesInicialesAt(catalogo: seq<Categoria>, i: nat)
    requires i < |catalogo|
    ensures ClavesIniciales(catalogo[..i + 1]) == ClavesIniciales(catalogo[..i]) + ClavesCategoria(catalogo[i])
  {
    assert catalogo[..i + 1][..i] == catalogo[..i];
  }

  lemma ClavesCategoriaAt(antes: seq<string>, cat: Categoria, q: nat)
    requires q < |cat.preguntas|
    ensures antes + ClavesCategoria(cat)[..q + 1] == (antes + ClavesCategoria(cat)[..q]) + [Clave(cat.numero, q)]
  {
    assert ClavesCategoria(cat)[..q + 1] == ClavesCategoria(cat)[..q] + [Clave(cat.numero, q)];
  }

  /**
   * `respuestasIniciales`: one null answer for every question of every
   * category, under the key "{numero}-{index}", in the order visited.
   */
  method RespuestasIniciales(catalogo: seq<Categoria>) returns (r: Respuestas)
    ensures Claves(r) == Distinct(ClavesIniciales(catalogo))
    ensures forall e :: e in r ==> e.valor == None
    ensures forall k :: Buscar(r, k) == if k in ClavesIniciales(catalogo) then Some(None) else None
  {
    r := [];
    for i := 0 to |catalogo|
      invariant Claves(r) == Distinct(ClavesIniciales(catalogo[..i]))
      invariant forall e :: e in r ==> e.valor == None
    {
      var cat := catalogo[i];
      ghost var antes := ClavesIniciales(catalogo[..i]);
      assert antes + ClavesCategoria(cat)[..0] == antes;
      for q := 0 to |cat.preguntas|
        invariant Claves(r) == Distinct(antes + ClavesCategoria(cat)[..q])
        invariant forall e :: e in r ==> e.valor == None
      {
        ClavesCategoriaAt(antes, cat, q);
        DistinctSnoc(antes + ClavesCategoria(cat)[..q], Clave(cat.numero, q));
        r := Poner(r, Clave(cat.numero, q), None);
      }
      assert ClavesCategoria(cat)[..|cat.preguntas|] == ClavesCategoria(cat);
      ClavesInicialesAt(catalogo, i);
    }
    assert catalogo[..|catalogo|] == catalogo;
    forall k ensures Buscar(r, k) == if k in ClavesIniciales(catalogo) then Some(None) else None {
      assert k in Claves(r) <==> k in ClavesIniciales(catalogo);
    }
  }

  // ---------------------------------------------------------------- loading stored answers

  /** The key a stored preference is loaded under: `${categoria_id}-${pregunta_id - 1}`. */
  function ClaveDe(p: Preferencia): string
  {
    Clave(p.categoriaId, p.preguntaId - 1)
  }

  /** The keys of the stored preferences, in order. */
  function ClavesDe(ps: seq<Preferencia>): seq<string>
  {
    if ps == [] then [] else ClavesDe(ps[..|ps| - 1]) + [ClaveDe(ps[|ps| - 1])]
  }

  /** The reduce: each stored preference written over the base, in order. */
  function Cargado(base: Respuestas, ps: seq<Preferencia>): Respuestas
  {
    if ps == [] then base
    else
      var p := ps[|ps| - 1];
      Poner(Cargado(base, ps[..|ps| - 1]), ClaveDe(p), Some(p.valoracion))
  }

  lemma CargadoAt(base: Respuestas, ps: seq<Preferencia>, i: nat)
    requires i < |ps|
    ensures Cargado(base, ps[..i + 1]) == Poner(Cargado(base, ps[..i]), ClaveDe(ps[i]), Some(ps[i].valoracion))
  {
    assert ps[..i + 1][..i] == ps[..i];
  }

  /**
   * `respuestasResponse.data.preferencias?.reduce(..., { ...respuestasIniciales })`,
   * falling back to the initial answers when there are no stored preferences.
   */
  method CargarRespuestas(iniciales: Respuestas, preferencias: Option<seq<Preferencia>>) returns (r: Respuestas)
    ensures r == if preferencias.None? then iniciales else Cargado(iniciales, preferencias.value)
  {
    r := iniciales;
    if preferencias.Some? {
      var ps := preferencias.value;
      for i := 0 to |ps|
        invariant r == Cargado(iniciales, ps[..i])
      {
        CargadoAt(iniciales, ps, i);
        r := Poner(r, ClaveDe(ps[i]), Some(ps[i].valoracion));
      }
      assert ps[..|ps|] == ps;
    }
  }

  /** Loading keeps every base key in place and adds the stored keys that are new, in order. */
  lemma {:induction false} CargadoClaves(base: Respuestas, ps: seq<Preferencia>)
    ensures Claves(base) <= Claves(Cargado(base, ps))
    ensures forall k :: k in Claves(Cargado(base, ps)) <==> k in Claves(base) || k in ClavesDe(ps)
  {
    if ps != [] {
      var q := ps[..|ps| - 1];
      CargadoClaves(base, q);
      assert ClavesDe(ps) == ClavesDe(q) + [ClaveDe(ps[|ps| - 1])];
    }
  }

  /** Answers no stored preference names keep their base value. */
  lemma {:induction false} CargadoIntacto(base: Respuestas, ps: seq<Preferencia>, k: string)
    requires k !in ClavesDe(ps)
    ensures Buscar(Cargado(base, ps), k) == Buscar(base, k)
  {
    if ps != [] {
      var q := ps[..|ps| - 1];
      assert ClavesDe(ps) == ClavesDe(q) + [ClaveDe(ps[|ps| - 1])];
      CargadoIntacto(base, q, k);
    }
  }

  /** A stored preference not overwritten by a later one with the same key is what the answer holds. */
  lemma {:induction false} UltimaGana(base: Respuestas, ps: seq<Preferencia>, i: nat)
    requires i < |ps|
    requires forall j :: i < j < |ps| ==> ClaveDe(ps[j]) != ClaveDe(ps[i])
    ensures Buscar(Cargado(base, ps), ClaveDe(ps[i])) == Some(Some(ps[i].valoracion))
  {
    if i < |ps| - 1 {
      UltimaGana(base, ps[..|ps| - 1], i);
    }
  }

  // ---------------------------------------------------------------- answering and submitting

  /** The ratings offered for every question. */
  const Valoraciones: seq<int> := [1, 2, 3, 4, 5]

  /** `handleRatingChange`: only the answer under "{categoria}-{pregunta}" changes. */
  function CambiarValoracion(r: Respuestas, categoriaNum: int, preguntaIndex: int, valor: int): (r2: Respuestas)
    ensures Buscar(r2, Clave(categoriaNum, preguntaIndex)) == Some(Some(valor))
    ensures forall k :: k != Clave(categoriaNum, preguntaIndex) ==> Buscar(r2, k) == Buscar(r, k)
    ensures Clave(categoriaNum, preguntaIndex) in Claves(r) ==> Claves(r2) == Claves(r)
  {
    Poner(r, Clave(categoriaNum, preguntaIndex), Some(valor))
  }

  /** Every answer given is one of the offered ratings. */
  ghost predicate EnEscala(r: Respuestas)
  {
    forall e :: e in r && e.valor.Some? ==> e.valor.value in Valoraciones
  }

  /** Answering with an offered rating keeps every answer on the scale. */
  lemma CambiarEnEscala(r: Respuestas, categoriaNum: int, preguntaIndex: int, valor: int)
    requires EnEscala(r) && valor in Valoraciones
    ensures EnEscala(CambiarValoracion(r, categoriaNum, preguntaIndex, valor))
  {
  }

  /** `Object.values(respuestas).every(val => val !== null)`. */
  predicate TodasRespondidas(r: Respuestas)
  {
    forall i :: 0 <= i < |r| ==> r[i].valor.Some?
  }

  /** An element of `datosParaAPI.preferencias`; ids are what parseInt returns. */
  datatype Envio = Envio(categoriaId: JsInt, preguntaId: JsInt, valoracion: Option<int>)

  /**
   * One entry serialised: `key.split("-")`, the first piece parsed as the
   * category, the second (undefined, hence NaN, when missing) parsed plus one.
   */
  function SerializarEntrada(e: Entrada): Envio
  {
    var partes := Split(e.clave, '-');
    var preguntaIndex := if |partes| > 1 then ParseInt(partes[1]) else NaN;
    Envio(ParseInt(partes[0]), PlusOne(preguntaIndex), e.valor)
  }

  /** `Object.entries(respuestas).map(...)`. */
  function Serializar(r: Respuestas): seq<Envio>
  {
    seq(|r|, i requires 0 <= i < |r| => SerializarEntrada(r[i]))
  }

  /** handleSubmit: nothing is sent unless every answer is filled in; then one element per answer. */
  function Enviar(r: Respuestas): (s: Option<seq<Envio>>)
    ensures s.Some? <==> forall e :: e in r ==> e.valor.Some?
    ensures s.Some? ==> |s.value| == |r| && forall i :: 0 <= i < |r| ==> s.value[i] == SerializarEntrada(r[i])
  {
    if TodasRespondidas(r) then Some(Serializar(r)) else None
  }

  lemma SinGuion(n: int)
    requires n >= 0
    ensures '-' !in IntToString(n)
  {
    var s := IntToString(n);
    assert AllDigits(s);
    forall i | 0 <= i < |s| ensures s[i] != '-' {
      assert IsDigit(s[i]);
    }
  }

  /** The key "{c}-{q}" splits on "-" into the two printed ids, for c, q >= 0. */
  lemma PartesClave(c: int, q: int)
    requires c >= 0 && q >= 0
    ensures Split(Clave(c, q), '-') == [IntToString(c), IntToString(q)]
  {
    var sc := IntToString(c);
    var sq := IntToString(q);
    SinGuion(c);
    SinGuion(q);
    assert Clave(c, q) == sc + ['-'] + sq;
    SplitAt(sc, sq, '-');
    SplitWithoutSeparator(sq, '-');
  }

  /** Serialising the key "{c}-{q}" reads back category c and question q + 1, for c, q >= 0. */
  lemma SerializarClave(c: int, q: int, v: Option<int>)
    requires c >= 0 && q >= 0
    ensures SerializarEntrada(Entrada(Clave(c, q), v)) == Envio(Int(c), Int(q + 1), v)
  {
    PartesClave(c, q);
    ParseIntToString(c);
    ParseIntToString(q);
  }

  /**
   * Round trip: a stored preference with category id >= 0 and question id >= 1
   * that no later stored preference overwrites is loaded, then serialised
   * back with the same category id, question id and rating.
   */
  lemma IdaYVuelta(base: Respuestas, ps: seq<Preferencia>, i: nat)
    requires i < |ps|
    requires ps[i].categoriaId >= 0 && ps[i].preguntaId >= 1
    requires forall j :: i < j < |ps| ==> ClaveDe(ps[j]) != ClaveDe(ps[i])
    ensures Envio(Int(ps[i].categoriaId), Int(ps[i].preguntaId), Some(ps[i].valoracion))
            in Serializar(Cargado(base, ps))
  {
    UltimaGana(base, ps, i);
    EnvioDeMiembro(Cargado(base, ps), ps[i].categoriaId, ps[i].preguntaId, ps[i].valoracion);
  }

  /** An answer stored under "{c}-{q - 1}" is sent with category c and question q. */
  lemma EnvioDeMiembro(r: Respuestas, c: int, q: int, v: int)
    requires c >= 0 && q >= 1
    requires Entrada(Clave(c, q - 1), Some(v)) in r
    ensures Envio(Int(c), Int(q), Some(v)) in Serializar(r)
  {
    SerializarClave(c, q - 1, Some(v));
    SerializarMiembro(r, Entrada(Clave(c, q - 1), Some(v)));
  }

  /** Every answer of the form shows up, serialised, among the elements sent. */
  lemma SerializarMiembro(r: Respuestas, e: Entrada)
    requires e in r
    ensures SerializarEntrada(e) in Serializar(r)
  {
    var k :| 0 <= k < |r| && r[k] == e;
    assert Serializar(r)[k] == SerializarEntrada(e);
  }

  /** A question id of 0 loads under "{c}--1", which serialises back with a NaN question id. */
  lemma PreguntaCero(c: int, v: Option<int>)
    requires c >= 0
    ensures SerializarEntrada(Entrada(Clave(c, -1), v)).preguntaId == NaN
  {
    var sc := IntToString(c);
    SinGuion(c);
    assert IntToString(-1) == "-" + "1";
    assert Clave(c, -1) == sc + ['-'] + (['-'] + "1");
    SplitAt(sc, ['-'] + "1", '-');
    SplitAt([], "1", '-');
    assert Split(Clave(c, -1), '-')[1] == [];
  }
}
