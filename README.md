# AutoVote core, modelled in Dafny

AutoVote is a React front end for a voting platform. Voters fill in a
preference questionnaire and vote on candidates' proposals. Candidates publish
proposals. An administrator validates candidates. This project models the logic
those pages compute, and proves what that logic promises:

- **Statistics page (`Estadisticas.js`).**
  - The administrator's report pools voters and candidates. It gives an age
    histogram sorted by age, a city histogram sorted by descending count, and the
    sum of ratings per questionnaire category.
  - The candidate's report counts the votes on the candidate's own proposals per
    catalog category. It collects the set of distinct supporters and the
    proposals that received votes. It builds age and "city, state" histograms of
    the supporters and their share of all voters.
  - Both memos are loops over JavaScript objects. They are modelled as methods
    over a `map` plus a sequence of its keys. For dictionaries whose rows are
    read in key order, that sequence is the order JavaScript lists them in. The
    age dictionaries keep plain insertion order. That is harmless, because
    their rows are sorted by age afterwards.
    Each method is proved against specification functions.
- **Questionnaire (`Preferencias.js`).**
  - Building the empty answers from the catalog.
  - Loading stored preferences over them.
  - Changing one rating.
  - Checking that every question is answered.
  - Serialising the answers back into preference records.
- **Candidate validation list (`Validacion.js`), voter list (`Votantes.js`)
  and proposal search (`Buscar.js`).**
  - The search and filters.
  - The stable sorts: by validation status, by vote count or by date.
  - The list updates after validate, invalidate and delete requests succeed.
  - The title shortening.
- **Registration form (`Login.js`).**
  - Splitting the signed-in user's display name into given names and surnames.
  - The user-type switch and the form updates.
  - The postal-code lookup and the normalisation of its answer.
  - The request and the redirect chosen on submit.
  - The form is a `class` whose methods change its fields.
- **Access rule (`ProtectedRoute.js`).** Redirect, refuse or show the route.

The shared modules are:

| module | content |
|---|---|
| `Wrappers` | `Option` |
| `Seqs` | filter, subsequence, sums |
| `Sorting` | a stable insertion sort by an integer key, with its properties |
| `Tally` | counting, first-seen distinct keys, histogram invariants |
| `Text` | ASCII lower case, substring search, digits, integer printing and parsing, trim, split and join |
| `Records` | the stored entities |

`Array.prototype.sort` is stable, so every sort is modelled by `Sorting.SortBy`. A comparator `(a, b) => k(a) - k(b)` becomes the key `k`. The reversed comparator becomes the key `-k`. A comparator that returns 0 becomes a constant key, which leaves the order unchanged. An absent or falsy string field is the empty string, and an absent array is `None`.

Where the code's behaviour is surprising, the model follows the code:

- Category totals are kept per category id, not per category name.
- A vote on a proposal whose category is not in the catalog counts no category vote, though its voter is still a supporter.
- The supporters' age histogram is sorted by age, not by count.
- The support share is a percentage between 0 and 100, not a ratio between 0 and 1.

## Model

| member | source | states |
|---|---|---|
| AdminStats.Todos | src/pages/Estadisticas.js:81-83 | the voters come first and then the candidates, each record carrying that person's age and city and the list it came from |
| AdminStats.SplitByTipo | src/pages/Estadisticas.js:92 | for each age, the voter counter plus the candidate counter is the number of people of that age |
| AdminStats.FilasEdadFacts | src/pages/Estadisticas.js:86-93 | one row per distinct age; each row holds that age's voter and candidate counts; the counters add up to the population |
| AdminStats.HistogramaEdades | src/pages/Estadisticas.js:86-119 | the loop builds exactly the age rows, listed in strictly increasing age; every age seen has its row; the counters add up to the population size |
| AdminStats.FilasCiudadFacts | src/pages/Estadisticas.js:96-101 | one row per distinct city label, with "Sin ciudad" for a missing city; each total is that label's count; totals add up to the population |
| AdminStats.HistogramaCiudades | src/pages/Estadisticas.js:96-120 | the loop builds the city rows sorted by non-increasing total (ties in first-seen order); names are distinct; totals sum to the population |
| AdminStats.BuscarCategoria | src/pages/Estadisticas.js:109 | `find` returns the first catalog entry with that number, and None exactly when no entry has it |
| AdminStats.Etiqueta | src/pages/Estadisticas.js:109 | when some catalog entry has that number, the first one supplies the label if its name is non-empty; when none has it, or that name is empty, the label is "Categoría " followed by the id |
| AdminStats.TotalesAddUp | src/pages/Estadisticas.js:104-116 | summing the per-category totals gives the sum of all ratings |
| AdminStats.IdsCategoriaFacts | src/pages/Estadisticas.js:121 | `Object.values` lists each category id once, array-index ids first in ascending order, and exactly the ids seen |
| AdminStats.TotalesCategoria | src/pages/Estadisticas.js:104-121 | row j holds the label and summed rating of the j-th id in property order; voters whose preferences are not an array add nothing; rows sum to the total rating |
| AdminStats.AdminData | src/pages/Estadisticas.js:80-123 | the report's three lists are the age, city and category histograms above, and each count adds up to its whole |
| CandidateStats.IniciarVotos | src/pages/Estadisticas.js:138-144 | a zero counter for every catalog category name, keys in first-seen order |
| CandidateStats.RegistrarVotos | src/pages/Estadisticas.js:155-163 | one proposal's votes add to its category's counter, if that category exists, and add their voter ids to the supporter set |
| CandidateStats.ProcesarPropuestas | src/pages/Estadisticas.js:146-165 | after the loop, each counter is the number of votes on owned proposals of that category; the sets are the supporters and the owned proposals with votes |
| CandidateStats.ApoyosSonVotos | src/pages/Estadisticas.js:155-163 | the supporter set is the set of voter ids over all votes on owned proposals |
| CandidateStats.ApoyosAcotados | src/pages/Estadisticas.js:201 | distinct supporters never outnumber the votes, so a repeated voter counts once |
| CandidateStats.ConVotosAcotados | src/pages/Estadisticas.js:150-152 | the proposals with votes are at most the owned proposals |
| CandidateStats.ConVotosMiembros | src/pages/Estadisticas.js:147-152 | an id is in the set exactly when an owned proposal with that id has a non-empty vote list |
| CandidateStats.AjenasNoCuentan | src/pages/Estadisticas.js:148 | proposals of other candidates add no votes, no supporters and no engaged proposals |
| CandidateStats.MismosRegistros | src/pages/Estadisticas.js:168-178 | the age and place histograms count the same supporter records, no more than there are voters |
| CandidateStats.Demografia | src/pages/Estadisticas.js:167-178 | the loop tallies the supporters' ages and "city, state" labels, with "Sin ciudad" and "Sin estado" defaults |
| CandidateStats.FormatoVotos | src/pages/Estadisticas.js:181-183 | exactly the categories with a positive count, each listed once with its count, in non-increasing count order |
| CandidateStats.EmpatesVotos | src/pages/Estadisticas.js:181-183 | categories with equal counts keep the dictionary's key order, as the stable sort leaves them |
| CandidateStats.FormatoEdades | src/pages/Estadisticas.js:185-191 | one "N años" slice per age with its count, in strictly increasing age |
| CandidateStats.FormatoEdadesSuma | src/pages/Estadisticas.js:185-191 | the age slices add up to the number of supporter records |
| CandidateStats.FormatoLugares | src/pages/Estadisticas.js:193-198 | one slice per place with its count, each place listed once, in non-increasing count order |
| CandidateStats.EmpatesLugares | src/pages/Estadisticas.js:193-198 | places with equal counts keep the order in which they were first seen |
| CandidateStats.FormatoLugaresSuma | src/pages/Estadisticas.js:193-198 | the place slices add up to the number of supporter records |
| CandidateStats.Porcentaje | src/pages/Estadisticas.js:200-204 | the percentage lies between 0 and 100, and is 0 when there are no voters |
| CandidateStats.PorcentajeExacto | src/pages/Estadisticas.js:202-203 | when the supporters are at most the voters, the clamp does not bite and the value is the exact ratio times 100 |
| CandidateStats.ApoyosRegistrados | src/pages/Estadisticas.js:200-204 | if every supporter is a registered voter, the supporters are at most the voters and the percentage is the exact share |
| CandidateStats.CardIds | src/pages/Estadisticas.js:200 | there are no more distinct voter ids than voter records |
| CandidateStats.CandidateData | src/pages/Estadisticas.js:126-217 | null exactly when the candidate, the voters or the catalog is missing; otherwise every field of the report is the count or histogram above, each category and place listed once, with `tieneDatos` exactly when there is a supporter |
| Preferencias.Poner | src/pages/Preferencias.js:61-66 | spreading and setting a key keeps an existing key's place, appends a new key, changes that key's value and no other |
| Preferencias.RespuestasIniciales | src/pages/Preferencias.js:31-36 | the nested loops give one null answer per "categoria-indice" key of the catalog, in first-seen order |
| Preferencias.CargarRespuestas | src/pages/Preferencias.js:41-48 | the reduce writes each stored rating, in order, over the initial answers; with no array the initial answers are kept |
| Preferencias.CargadoClaves | src/pages/Preferencias.js:41-47 | loading keeps every initial key and adds exactly the stored preferences' keys |
| Preferencias.CargadoIntacto | src/pages/Preferencias.js:41-47 | a key that no stored preference names keeps its initial value |
| Preferencias.UltimaGana | src/pages/Preferencias.js:42-44 | the last stored preference for a key is the value that stays |
| Preferencias.CambiarValoracion | src/pages/Preferencias.js:61-66 | changing a rating sets that question's key and leaves every other answer as it was |
| Preferencias.CambiarEnEscala | src/pages/Preferencias.js:136 | choosing among the five offered ratings keeps every answer on the 1-5 scale |
| Preferencias.Enviar | src/pages/Preferencias.js:72-89 | the answers are sent only when none is null, one record per answer in key order |
| Preferencias.SinGuion | src/pages/Preferencias.js:83 | a non-negative id is printed without a "-" |
| Preferencias.SerializarClave | src/pages/Preferencias.js:82-87 | the key "c-q" is read back as category c and question q + 1 |
| Preferencias.IdaYVuelta | src/pages/Preferencias.js:41-89 | a loaded preference is sent back with its category, question id and rating unchanged |
| Preferencias.PreguntaCero | src/pages/Preferencias.js:43-86 | a stored question id of 0 makes the key "c--1", which is sent back with a NaN question id |
| Validacion.Filtrados | src/pages/Validacion.js:80-96 | exactly the candidates matching search, office and status, in list order, every copy kept |
| Validacion.CandidatosFiltrados | src/pages/Validacion.js:80-102 | a permutation of the filtered list; under "todos" ordered valida, pendiente, invalida with ties in list order; otherwise the list order |
| Validacion.SinFiltros | src/pages/Validacion.js:83-95 | an empty search with both filters at "todos" lists every candidate |
| Validacion.ConValidacion | src/pages/Validacion.js:40-46 | the update keeps length and order and changes only the status of the records with that id |
| Validacion.ConValidacionUltima | src/pages/Validacion.js:40-46 | a later status update of the same id replaces the earlier one |
| Validacion.ValidadoVisible | src/pages/Validacion.js:92-93 | a candidate just validated appears under the "valida" filter when it matches search and office |
| Validacion.Revisar | src/pages/Validacion.js:33-51 | the list changes, to the status sent ("valida" for validarCandidato) for that id, only when the response carries `_id` |
| Validacion.InvalidarCandidato | src/pages/Validacion.js:105-125 | the list changes, to status "invalida" for that id, only when the user confirms and the response carries `_id` |
| Validacion.SinCandidato | src/pages/Validacion.js:62-64 | exactly the records with that id are removed; the rest keep their order |
| Validacion.EliminarCandidato | src/pages/Validacion.js:54-70 | the list loses that id only when the user confirms and the response carries `message` |
| Votantes.VotantesFiltrados | src/pages/Votantes.js:48-56 | exactly the voters whose search text contains the term, ignoring case, in list order |
| Votantes.BusquedaVacia | src/pages/Votantes.js:50-53 | an empty search lists every voter in order |
| Votantes.FiltradosAcotados | src/pages/Votantes.js:48-56 | the filtered list is never longer than the list |
| Votantes.SinVotante | src/pages/Votantes.js:37-39 | exactly the records with that id are removed; the rest keep their order |
| Votantes.EliminarVotante | src/pages/Votantes.js:31-45 | the list loses that id only when the user confirms and the response carries `message` |
| Buscar.Filtradas | src/pages/Buscar.js:60-74 | exactly the proposals whose title, description or author contains the term and whose category matches, in list order |
| Buscar.Ordenadas | src/pages/Buscar.js:76-97 | a permutation of the filtered list, ordered by the chosen vote or date order; an unknown option keeps the list order |
| Buscar.EmpatesAscendentes | src/pages/Buscar.js:88-89 | under "votos_asc", proposals with equal vote counts keep their list order |
| Buscar.EmpatesDescendentes | src/pages/Buscar.js:86-87 | under "votos_desc", proposals with equal vote counts keep their list order |
| Buscar.Mostrando | src/pages/Buscar.js:290 | the number shown is at most the number of proposals |
| Buscar.Titulo | src/pages/Buscar.js:212-214 | a title of at most 45 characters is shown whole; a longer one is shown as its first 45 characters and "..." |
| Login.UnaPalabra | src/pages/Login.js:19-25 | the split has fewer than two parts exactly when the trimmed name has no space; then the untrimmed input is the given name and the surname is empty |
| Login.Apellidos | src/pages/Login.js:27 | the surnames split back into exactly the last two words |
| Login.DosPalabras | src/pages/Login.js:26-27 | with two words the given names are empty and the surnames are the trimmed name |
| Login.NombreCompleto | src/pages/Login.js:19-27 | with three or more words the given names are all words but the last two, and given names, a space and surnames spell the trimmed name |
| Login.TipoUsuario | src/pages/Login.js:144-152 | false exactly for "Candidato" |
| Login.Cambio | src/pages/Login.js:128-139 | choosing "Candidato" clears candidacy and certificate; the changed field takes its value and every other field is kept |
| Login.CambioTalCualNoLimpia | src/pages/Login.js:128-139 | as written, switching to "Candidato" keeps an earlier candidacy, unlike the intended update |
| Login.CambioTalCualEjemplo | src/pages/Login.js:128-139 | with "Senador" typed earlier, the code as written keeps it, while the intended update clears it |
| Login.Normalizar | src/pages/Login.js:267-273 | an error body gives no addresses; else `response`; else the body if it is an array; else none |
| Login.Carga | src/pages/Login.js:159-179 | the payload copies the form's personal fields and photo; a voter gets empty `preferencias` and `propuestas_votadas`, anyone else the candidacy fields with status "pendiente" |
| Login.Envio | src/pages/Login.js:159-201 | a voter posts to "votante", a candidate to "politico" with the uploaded file's URL when there is one, any other type sends nothing |
| Login.Redireccion | src/pages/Login.js:203-221 | after a 201 a candidate goes to "/crearpropuesta" and a voter to "/preferencias"; no redirect otherwise |
| Login.TipoSesion | src/pages/Login.js:215 | the session type is the user type in lower case: "candidato" or "votante" |
| Login.Registro.constructor | src/pages/Login.js:70-82 | the form starts as a voter with empty fields and age 18; no postal code, addresses, loading or error |
| Login.Registro.AplicarUsuario | src/pages/Login.js:111-121 | the signed-in user's names and e-mail are written into the form and nothing else changes |
| Login.Registro.CambiarCampoTalCual | src/pages/Login.js:125-140 | as written, the form ends with only the changed field updated |
| Login.Registro.CambiarCampo | src/pages/Login.js:125-140 | the form ends as the intended update describes |
| Login.Registro.CambiarCodigoPostal | src/pages/Login.js:247-290 | the code keeps only digits; a lookup happens exactly with 5 digits; a failure clears the list with an error, an empty answer sets the "no results" message, otherwise the list is stored; other lengths clear the list |
| Login.Registro.SubirCedula | src/pages/Login.js:44-64 | a successful upload writes its URL into `cedula_politica`, nothing else changes |
| Login.Registro.Enviar | src/pages/Login.js:156-201 | the request sent is the one described above, and only a candidate's upload changes the form |
| ProtectedRoute.Acceso | src/components/ProtectedRoute.js:10-32 | redirect to "/" exactly with no user and not loading; refused exactly for a user whose type is missing from non-empty roles; otherwise the outlet, including no user while loading |
| ProtectedRoute.SinRoles | src/components/ProtectedRoute.js:14 | a route with no roles admits every signed-in user |
| ProtectedRoute.RegistradoAdmitido | src/components/ProtectedRoute.js:14 | a user just registered as candidate or voter passes a route for that type, and is refused by the "administrador" routes |
| Text.DigitsOnly | src/pages/Login.js:248 | keeps every occurrence of every digit and nothing else, in order, and leaves an all-digit string unchanged |
| Text.SplitJoin | src/pages/Login.js:26-27 | joining pieces without a space and splitting again gives back the pieces |
| Text.JoinSplit | src/pages/Login.js:19-27 | splitting on a space and joining with a space gives back the string |
| Text.ParseIntToString | src/pages/Preferencias.js:85-86 | parsing a printed integer gives back the integer |
| Sorting.SortByStable | src/pages/Buscar.js:76-97 | sorting keeps the relative order of elements with equal keys |

## Left out

- Network and storage calls are not modelled: the API client, Firebase sign-in and file upload, and the postal lookup service. Their outcomes are parameters: the `_id` or `message` of a response, the uploaded URL, and the lookup function `consulta`. The answer to `window.confirm` is a parameter. `alert` and console output are not modelled. `navigate` is modelled as the path it would receive.
- React's state hooks, effects, memos and re-rendering are not modelled. Each handler is a function or method over the state it reads. Two lookups in flight at once, where a late answer overwrites a newer one, are not modelled.
- All rendering (JSX, charts, modals) is not modelled, apart from the title cell and the count line.
- Validacion.Rango: a status other than valida, pendiente or invalida has no rank. The source's comparator then returns NaN. The model ranks it 4, after "invalida".
- CandidateStats.Porcentaje: `toFixed(2)` is not modelled; the value is the exact real, not the two-decimal string.
- Buscar.Fecha: date parsing and `$date` unwrapping are not modelled. A creation time is an integer number of milliseconds, and a missing one is 0.
- Vote records are taken with their voter id already a string; the `$oid` unwrapping is not modelled.
- Text.Lower: ASCII case folding stands in for Unicode `toLowerCase`. Lengths count Dafny characters, not UTF-16 code units, in the title cut too.
- AdminStats.HistogramaCiudades: a city name or catalog category name that is a canonical array index would be listed first by `Object.entries`/`Object.values`. This changes only the tie order among equal totals. Such names keep insertion order in the model. Numeric category ids do follow the index-first order.
- Records.TextoBusqueda: an absent field is the empty string, where the source's template string prints "undefined".
- Buscar.Filtradas and Validacion.Filtrados: an absent `titulo`, `categoria`, `candidatura` or author name is the empty string. In the source, the author name would print "undefined" in the search text, and `.toLowerCase()` on the other absent fields throws.
- JavaScript numbers are doubles, and the model uses unbounded integers. Sums and counts above 2^53 lose precision in the source, and `${n}` prints exponential notation from 1e21 on. Text.IntToString, as used in the age labels and the answer keys, always prints plain decimal digits.
- Records.Perfil: age is always an integer. In the source, a missing or non-numeric age becomes the dictionary key "undefined" or "". The age comparators then return NaN, which leaves the sort order inconsistent. The model does not represent such an age.
- Records.Preferencia: ratings and ids are integers. A missing or non-numeric rating, which the source would add as NaN, is not modelled.
- Preferencias.SerializarClave: stated for a non-negative category id and question key. A negative category id puts a second "-" in the key, and only its leading part is read back.
- Login: `edad` is held as a string, as the form input delivers it; the initial number 18 is the string "18".
- Login: a null display name or a missing signed-in user, which make the source throw, is not modelled.
- Login.Normalizar: a truthy `response` field is taken to be an address list.
- `handleAddressSelect` (Login.js:292-300) is not part of this model.
- Login.Registro.CambiarCodigoPostal: the intermediate `loading` state while the request is pending is not observable. The method states the final state only.

## Findings

| source | as written | input that shows it | evidently intended | confidence | as-written member | corrected member |
|---|---|---|---|---|---|---|
| src/pages/Login.js:128-139 | both `setFormData` calls spread the same `formData`; the second sets only `user`, and it replaces the first, so `candidatura` and `cedula_politica` are never cleared | choose "Candidato", type candidacy "Senador", switch to "Votante", then back to "Candidato": the form still holds "Senador" | switching to "Candidato" clears `candidatura` and `cedula_politica` and sets `user` | not executed | Login.Registro.CambiarCampoTalCual, Login.CambioTalCualNoLimpia | Login.Registro.CambiarCampo, Login.Cambio |
