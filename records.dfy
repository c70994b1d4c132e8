/**
 * The records the pages receive from the data store, with ids normalised to
 * strings and "" standing for a string field that is absent or empty (both
 * are falsy in the source's `||` defaults).
 */
module Records {
  import opened Wrappers
  import opened Text

  /** A stored answer: the rating given to question preguntaId (counted from 1) of category categoriaId. */
  datatype Preferencia = Preferencia(categoriaId: int, preguntaId: int, valoracion: int)

  /** The fields every registered person carries. */
  datatype Perfil = Perfil(
    id: string, nombre: string, apellido: string, edad: int, correo: string,
    codigoPostal: string, colonia: string, ciudad: string, estado: string)

  /** A voter; preferencias is None when the stored field is not an array. */
  datatype Votante = Votante(perfil: Perfil, preferencias: Option<seq<Preferencia>>)

  /** A candidate, with the office it runs for and its validation status. */
  datatype Candidato = Candidato(perfil: Perfil, candidatura: string, validacion: string)

  /** A category of the questionnaire catalog. */
  datatype Categoria = Categoria(numero: int, nombre: string, preguntas: seq<string>)

  /** The author of a proposal, as embedded in the proposal list. */
  datatype Politico = Politico(nombre: string, apellido: string)

  /**
   * A proposal. votos lists the ids of the voters who voted for it (None when
   * the field is absent); fechaCreacion is a timestamp in milliseconds.
   */
  datatype Propuesta = Propuesta(
    id: string, idPolitico: string, titulo: string, descripcion: string,
    categoria: string, politico: Option<Politico>, votos: Option<seq<string>>,
    fechaCreacion: Option<int>)

  /** The votes of a proposal, an absent list read as empty (`votos?.forEach`). */
  function VotosDe(p: Propuesta): seq<string>
  {
    p.votos.GetOr([])
  }

  /** The text the voter and candidate lists search in. */
  function TextoBusqueda(p: Perfil): string
  {
    p.nombre + " " + p.apellido + " " + p.correo + " " + p.ciudad + " "
      + p.colonia + " " + p.estado + " " + p.codigoPostal
  }

  /** The search of the voter and candidate lists, ignoring case. */
  predicate CoincideBusqueda(p: Perfil, termino: string)
  {
    Contains(Lower(TextoBusqueda(p)), Lower(termino))
  }
}
