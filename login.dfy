/**
 * The registration form of Login.js: the split of the signed-in user's
 * display name, the user-type switch, the form updates, the postal-code
 * lookup, and the request and redirect chosen on submit.
 */
module Login {
  import opened Wrappers
  import opened Text
  import opened Records

  // ---------------------------------------------------------------------
  // obtenerNombreApellido
  // ---------------------------------------------------------------------

  datatype NombreApellido = NombreApellido(nombres: string, apellidos: string)

  /** `displayName.trim().split(" ")`. */
  function Partes(displayName: string): seq<string>
  {
    Split(Trim(displayName), ' ')
  }

  /**
   * Fewer than two words: the whole input (untrimmed) as given names.
   * Otherwise the last two words are the surnames and the rest the given names.
   */
  function ObtenerNombreApellido(displayName: string): NombreApellido
  {
    var partes := Partes(displayName);
    if |partes| < 2 then NombreApellido(displayName, "")
    else NombreApellido(Join(partes[..|partes| - 2], ' '), Join(partes[|partes| - 2..], ' '))
  }

  /** A name is a single word exactly when its trimmed form has no space; it is then kept whole, untrimmed. */
  lemma UnaPalabra(displayName: string)
    ensures |Partes(displayName)| < 2 <==> ' ' !in Trim(displayName)
    ensures ' ' !in Trim(displayName) ==> ObtenerNombreApellido(displayName) == NombreApellido(displayName, "")
  {
    if ' ' in Trim(displayName) {
      SplitWithSeparator(Trim(displayName), ' ');
    } else {
      SplitWithoutSeparator(Trim(displayName), ' ');
    }
  }

  /** With two or more words the surnames are exactly the last two words, one space apart. */
  lemma Apellidos(displayName: string)
    requires |Partes(displayName)| >= 2
    ensures var partes := Partes(displayName);
            Split(ObtenerNombreApellido(displayName).apellidos, ' ') == partes[|partes| - 2..]
  {
    var partes := Partes(displayName);
    SplitJoin(partes[|partes| - 2..], ' ');
  }

  /** Two words: no given names, and the surnames are the trimmed input. */
  lemma DosPalabras(displayName: string)
    requires |Partes(displayName)| == 2
    ensures ObtenerNombreApellido(displayName) == NombreApellido("", Trim(displayName))
  {
    var partes := Partes(displayName);
    assert partes[|partes| - 2..] == partes;
    JoinSplit(Trim(displayName), ' ');
  }

  /**
   * Three or more words: the given names are every word but the last two,
   * and given names, a space and surnames spell the trimmed input.
   */
  lemma NombreCompleto(displayName: string)
    requires |Partes(displayName)| >= 3
    ensures var r := ObtenerNombreApellido(displayName);
            var partes := Partes(displayName);
            && Split(r.nombres, ' ') == partes[..|partes| - 2]
            && r.nombres + " " + r.apellidos == Trim(displayName)
  {
    var partes := Partes(displayName);
    var a, b := partes[..|partes| - 2], partes[|partes| - 2..];
    SplitJoin(a, ' ');
    JoinConcat(a, b, ' ');
    assert a + b == partes;
    JoinSplit(Trim(displayName), ' ');
  }

  // ---------------------------------------------------------------------
  // tipoUsuario
  // ---------------------------------------------------------------------

  /** Whether the voter layout is shown: for every user type except "Candidato". */
  function TipoUsuario(usuario: string): (r: bool)
    ensures !r <==> usuario == "Candidato"
  {
    if usuario == "Votante" then true
    else if usuario == "Candidato" then false
    else true
  }

  // ---------------------------------------------------------------------
  // The form object and handleChange
  // ---------------------------------------------------------------------

  /** The `formData` object: field name to value. */
  type Formulario = map<string, string>

  /** The form's initial state; `edad` starts at 18. */
  const FormularioInicial: Formulario :=
    map["user" := "Votante", "nombre" := "", "apellido" := "", "edad" := "18", "correo" := "",
        "codigo_postal" := "", "colonia" := "", "ciudad" := "", "estado" := "",
        "candidatura" := "", "cedula_politica" := ""]

  /** `formData[k]`, "" for a field that is not there. */
  function Campo(f: Formulario, k: string): string
  {
    if k in f then f[k] else ""
  }

  /** Choosing "Candidato" as the user type is meant to clear the candidacy fields. */
  predicate Limpia(name: string, value: string)
  {
    name == "user" && value == "Candidato"
  }

  /**
   * handleChange as written: both updates spread the same `formData`, so
   * the second, which only sets the changed field, is the one that stays.
   */
  function CambioTalCual(f: Formulario, name: string, value: string): Formulario
  {
    f[name := value]
  }

  /** The change handleChange intends: clear the candidacy fields on "Candidato", then set the field. */
  function Cambio(f: Formulario, name: string, value: string): (r: Formulario)
    ensures r.Keys == f.Keys + {name} + (if Limpia(name, value) then {"candidatura", "cedula_politica"} else {})
    ensures r[name] == value
    ensures Limpia(name, value) ==> r["candidatura"] == "" && r["cedula_politica"] == ""
    ensures forall k :: k in f && k != name && !(Limpia(name, value) && k in {"candidatura", "cedula_politica"}) ==>
              r[k] == f[k]
  {
    var g := if Limpia(name, value) then f["candidatura" := ""]["cedula_politica" := ""] else f;
    g[name := value]
  }

  /** As written, switching to "Candidato" keeps whatever candidacy had been typed before. */
  lemma CambioTalCualNoLimpia(f: Formulario)
    requires "candidatura" in f
    ensures CambioTalCual(f, "user", "Candidato")["candidatura"] == f["candidatura"]
    ensures f["candidatura"] != "" ==>
              CambioTalCual(f, "user", "Candidato")["candidatura"] != Cambio(f, "user", "Candidato")["candidatura"]
  {
  }

  /** The concrete case: "Senador" chosen, then Votante, then Candidato again. */
  lemma CambioTalCualEjemplo()
    ensures var f := FormularioInicial["user" := "Votante"]["candidatura" := "Senador"];
            CambioTalCual(f, "user", "Candidato")["candidatura"] == "Senador"
            && Cambio(f, "user", "Candidato")["candidatura"] == ""
  {
    var f := FormularioInicial["user" := "Votante"]["candidatura" := "Senador"];
    CambioTalCualNoLimpia(f);
  }

  // ---------------------------------------------------------------------
  // The postal-code lookup
  // ---------------------------------------------------------------------

  /** One address of the lookup service's answer. */
  datatype Direccion = Direccion(asentamiento: string, municipio: string, estado: string)

  /**
   * `response.data` in the shapes the handler tells apart: a falsy body, an
   * object (whether `error` is truthy, and its `response` list if present),
   * or an array.
   */
  datatype Datos =
    | Vacio
    | Objeto(error: bool, response: Option<seq<Direccion>>)
    | Arreglo(items: seq<Direccion>)

  /** The outcome of the HTTP request: it failed, or it returned a body. */
  datatype Consulta = Fallida | Respuesta(data: Datos)

  const SinResultados: string := "No se encontraron resultados para este código postal"
  const ErrorBusqueda: string := "Error al buscar el código postal. Intenta nuevamente."

  /** The address list read from a non-empty body: [] on error, else `response`, else the array, else []. */
  function Normalizar(data: Datos): (r: seq<Direccion>)
    requires !data.Vacio?
    ensures data.Objeto? && data.error ==> r == []
    ensures data.Objeto? && !data.error ==> r == data.response.GetOr([])
    ensures data.Arreglo? ==> r == data.items
  {
    match data
    case Objeto(error, response) => if error then [] else response.GetOr([])
    case Arreglo(items) => items
  }

  /** The lookup went to the catch branch: the request failed or the body was empty. */
  predicate Fallo(c: Consulta)
  {
    c.Fallida? || c.data.Vacio?
  }

  // ---------------------------------------------------------------------
  // handleSubmit
  // ---------------------------------------------------------------------

  /** The fields that depend on the user type. */
  datatype Extra =
    | DeVotante(preferencias: seq<Preferencia>, propuestasVotadas: seq<string>)
    | DeCandidato(candidatura: string, cedulaPolitica: string, validacion: string)

  /** `requestData`. */
  datatype Payload = Payload(nombre: string, apellido: string, edad: string, correo: string,
                             codigoPostal: string, colonia: string, ciudad: string, estado: string,
                             photoURL: string, extra: Extra)

  /** A POST to `ruta` with the payload. */
  datatype Solicitud = Solicitud(ruta: string, payload: Payload)

  /** `requestData` as first built: a voter's empty lists, or a candidate's fields with status "pendiente". */
  function Carga(f: Formulario, photoURL: string): (p: Payload)
    ensures p.nombre == Campo(f, "nombre") && p.apellido == Campo(f, "apellido") && p.edad == Campo(f, "edad")
    ensures p.correo == Campo(f, "correo") && p.codigoPostal == Campo(f, "codigo_postal")
    ensures p.colonia == Campo(f, "colonia") && p.ciudad == Campo(f, "ciudad") && p.estado == Campo(f, "estado")
    ensures p.photoURL == photoURL
    ensures Campo(f, "user") == "Votante" ==> p.extra == DeVotante([], [])
    ensures Campo(f, "user") != "Votante" ==>
              p.extra == DeCandidato(Campo(f, "candidatura"), Campo(f, "cedula_politica"), "pendiente")
  {
    Payload(Campo(f, "nombre"), Campo(f, "apellido"), Campo(f, "edad"), Campo(f, "correo"),
            Campo(f, "codigo_postal"), Campo(f, "colonia"), Campo(f, "ciudad"), Campo(f, "estado"),
            photoURL,
            if Campo(f, "user") == "Votante" then DeVotante([], [])
            else DeCandidato(Campo(f, "candidatura"), Campo(f, "cedula_politica"), "pendiente"))
  }

  /**
   * The request handleSubmit sends: a candidate goes to "politico" with the
   * uploaded file's URL as `cedula_politica` when the upload succeeded, a voter
   * to "votante"; any other user type sends nothing.
   */
  function Envio(f: Formulario, photoURL: string, subida: Option<string>): (r: Option<Solicitud>)
    ensures r.Some? <==> Campo(f, "user") == "Candidato" || Campo(f, "user") == "Votante"
    ensures Campo(f, "user") == "Votante" ==>
              r == Some(Solicitud("votante", Carga(f, photoURL))) && r.value.payload.extra == DeVotante([], [])
    ensures Campo(f, "user") == "Candidato" ==>
              && r.value.ruta == "politico"
              && r.value.payload == Carga(f, photoURL).(extra := r.value.payload.extra)
              && r.value.payload.extra
                 == DeCandidato(Campo(f, "candidatura"), subida.GetOr(Campo(f, "cedula_politica")), "pendiente")
  {
    var p := Carga(f, photoURL);
    if Campo(f, "user") == "Candidato" then
      Some(Solicitud("politico", p.(extra := p.extra.(cedulaPolitica := subida.GetOr(Campo(f, "cedula_politica"))))))
    else if Campo(f, "user") == "Votante" then
      Some(Solicitud("votante", p))
    else
      None
  }

  /** The page after a 201 answer: "/crearpropuesta" for a candidate, "/preferencias" for a voter. */
  function Redireccion(user: string, status: int): (r: Option<string>)
    ensures r == Some("/crearpropuesta") <==> user == "Candidato" && status == 201
    ensures r == Some("/preferencias") <==> user == "Votante" && status == 201
    ensures r.None? <==> status != 201 || (user != "Candidato" && user != "Votante")
  {
    if status != 201 then None
    else if user == "Candidato" then Some("/crearpropuesta")
    else if user == "Votante" then Some("/preferencias")
    else None
  }

  /** The `tipo` stored in the session: the user type in lower case. */
  function TipoSesion(user: string): (t: string)
    ensures |t| == |user|
    ensures user == "Candidato" ==> t == "candidato"
    ensures user == "Votante" ==> t == "votante"
  {
    Lower(user)
  }

  // ---------------------------------------------------------------------
  // The component state
  // ---------------------------------------------------------------------

  /** The registration page's state: the form, and the postal-code lookup's code, list, flag and message. */
  class Registro {
    var formData: Formulario
    var postalCode: string
    var addressData: seq<Direccion>
    var loading: bool
    var error: Option<string>

    constructor ()
      ensures formData == FormularioInicial && postalCode == "" && addressData == []
      ensures !loading && error == None
    {
      formData := FormularioInicial;
      postalCode := "";
      addressData := [];
      loading := false;
      error := None;
    }

    /** The signed-in user's effect: names from the display name, and the e-mail. */
    method AplicarUsuario(displayName: string, email: string)
      modifies this
      ensures formData == old(formData)["nombre" := ObtenerNombreApellido(displayName).nombres]
                                       ["apellido" := ObtenerNombreApellido(displayName).apellidos]
                                       ["correo" := email]
      ensures postalCode == old(postalCode) && addressData == old(addressData)
      ensures loading == old(loading) && error == old(error)
    {
      var resultado := ObtenerNombreApellido(displayName);
      formData := formData["nombre" := resultado.nombres]["apellido" := resultado.apellidos]["correo" := email];
    }

    /** handleChange as written: two replacements built from the same snapshot, the second one last. */
    method CambiarCampoTalCual(name: string, value: string)
      modifies this
      ensures formData == CambioTalCual(old(formData), name, value)
      ensures postalCode == old(postalCode) && addressData == old(addressData)
      ensures loading == old(loading) && error == old(error)
    {
      var previo := formData;
      if Limpia(name, value) {
        formData := previo["candidatura" := ""]["cedula_politica" := ""];
      }
      formData := previo[name := value];
    }

    /** handleChange as intended: the second update starts from the first one's result. */
    method CambiarCampo(name: string, value: string)
      modifies this
      ensures formData == Cambio(old(formData), name, value)
      ensures postalCode == old(postalCode) && addressData == old(addressData)
      ensures loading == old(loading) && error == old(error)
    {
      if Limpia(name, value) {
        formData := formData["candidatura" := ""]["cedula_politica" := ""];
      }
      formData := formData[name := value];
    }

    /**
     * handlePostalCodeChange: keep the digits; with exactly five, look them up
     * (`consulta` stands for the HTTP request) and store the normalised list,
     * with a message when it is empty or the lookup failed; otherwise clear the list.
     */
    method CambiarCodigoPostal(valor: string, consulta: string -> Consulta) returns (consultado: bool)
      modifies this
      ensures postalCode == DigitsOnly(valor)
      ensures forall c :: c in postalCode ==> IsDigit(c)
      ensures consultado <==> |postalCode| == 5
      ensures formData == old(formData)
      ensures !consultado ==> addressData == [] && error == None && loading == old(loading)
      ensures consultado ==> !loading
      ensures consultado && Fallo(consulta(postalCode)) ==> addressData == [] && error == Some(ErrorBusqueda)
      ensures consultado && !Fallo(consulta(postalCode)) ==>
                && addressData == Normalizar(consulta(postalCode).data)
                && (addressData == [] ==> error == Some(SinResultados))
                && (addressData != [] ==> error == None)
    {
      var cp := DigitsOnly(valor);
      postalCode := cp;
      error := None;
      if |cp| == 5 {
        consultado := true;
        loading := true;
        var c := consulta(cp);
        if Fallo(c) {
          error := Some(ErrorBusqueda);
          addressData := [];
        } else {
          var addresses := Normalizar(c.data);
          if |addresses| == 0 {
            error := Some(SinResultados);
          }
          addressData := addresses;
        }
        loading := false;
      } else {
        consultado := false;
        addressData := [];
      }
    }

    /** handleUpload: a successful upload writes the file's URL straight into `formData.cedula_politica`. */
    method SubirCedula(url: Option<string>)
      modifies this
      ensures formData == if url.Some? then old(formData)["cedula_politica" := url.value] else old(formData)
      ensures postalCode == old(postalCode) && addressData == old(addressData)
      ensures loading == old(loading) && error == old(error)
    {
      if url.Some? {
        formData := formData["cedula_politica" := url.value];
      }
    }

    /**
     * handleSubmit up to the POST: build the payload; for a candidate run the
     * upload (`url` is its outcome) and copy `cedula_politica` back in.
     */
    method Enviar(photoURL: string, url: Option<string>) returns (solicitud: Option<Solicitud>)
      modifies this
      ensures solicitud == Envio(old(formData), photoURL, url)
      ensures formData == if Campo(old(formData), "user") == "Candidato" && url.Some?
                          then old(formData)["cedula_politica" := url.value] else old(formData)
      ensures postalCode == old(postalCode) && addressData == old(addressData)
      ensures loading == old(loading) && error == old(error)
    {
      var requestData := Carga(formData, photoURL);
      var user := Campo(formData, "user");
      if user == "Candidato" {
        SubirCedula(url);
        requestData := requestData.(extra := requestData.extra.(cedulaPolitica := Campo(formData, "cedula_politica")));
        solicitud := Some(Solicitud("politico", requestData));
      } else if user == "Votante" {
        solicitud := Some(Solicitud("votante", requestData));
      } else {
        solicitud := None;
      }
    }
  }
}
