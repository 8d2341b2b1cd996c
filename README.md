# Juego de rol: characters, owners and skill choice

A model of the rules of AleFer516/Juego-de-rol, a tabletop role-playing helper. It has a Django REST backend and a React frontend. On the backend a game master (GM) creates characters. Each character has one race, power and equipment from four catalogs. The GM offers each character up to three skills. A player claims an unowned character from the pool, and then picks exactly two of the offered skills. The GM can level a character up, change its state (VIVO, CONGELADO, MUERTO), release it back to the pool, or edit it. A dead character cannot be claimed, edited, levelled up or given new skills.

The project follows the program's structure, one module per source file:

| module | file | models |
|---|---|---|
| `Comun` | `comun.dfy` | option, result, JSON request fields (missing / `null` / value), error bodies |
| `Texto` | `texto.dfy` | Python `strip` and JavaScript `trim`, the forbidden name characters, substring search, ASCII case folding, `String(n)` / `Number(s)` on ids |
| `Modelos` | `modelos.dfy` | `Usuario.Rol`, `Personaje` and `Personaje.Estado`, field defaults, `clean`, `puede_editar`, referential integrity |
| `Permisos` | `permisos.dfy` | the requester, `EsGM`, `EsPropietarioOGM` |
| `Serializadores` | `serializadores.dfy` | every serializer's validation and output, and the DRF field rules it relies on |
| `Vistas` | `vistas.dfy` | each endpoint's checks as a function (`Chequear…`), and the store `class Mundo` with one method per endpoint |
| `Api` | `api.js` → `api.dfy` | `localStorage` as `class Almacen`, the bearer interceptor (read against RFC 6750, section 2.1), the `login` / `obtenerYo` / `registrarse` calls |
| `Rutas` | `rutas.dfy` | the route table and its two guards, with redirects followed to the final page |
| `PaginaLogin` | `login.dfy` | the login page's submit |
| `PaginaRegistro` | `registro.dfy` | the registration page's submit |
| `PaginaPersonajes` | `personajes.dfy` | the characters page: request bodies, seeded drafts, the two-skill checkbox selection, alerts, the editor form, and the page state as `class Pagina` |

Each backend action is a pure check function (`Vistas.ChequearReclamo`, `Vistas.ChequearEleccion`, …) plus a `Mundo` method. The method applies the check's verdict and states its whole new state. That includes the changed record, the appended audit entry, and that nothing else changes. Every method keeps `Mundo.Valid()`: all ids are below the next id the database hands out, every foreign key names an existing row, and every stored character passes `Personaje.clean`. The pages talk to the backend through function parameters. Each such parameter is the answer the server gives to the body the page builds.

The model takes these decisions:
- The requester is the account id named by a verified access token.
- DRF's built-in messages use their default English wording.
- Ids are `nat`. A skill-choice request carries arbitrary `int`s.

Where the code departs from the project's own description, the model follows the code:
- Nothing keeps a character's chosen skills among its offered ones. `set-opciones` rewrites the offer and leaves the choice in place (`Vistas.SeleccionFueraDeOpciones`).
- The registration page leaves the stored session in place after a failure. The login page clears it.
- DRF's `CharField` strips the two passwords before the length check and before comparing them.
- The `nombre` field refuses a blank name before `validate_nombre` runs. The catalog validators' own "empty" message is therefore never the one reported (`Serializadores.NombreCatalogo`).

## Model

| member | source | states |
|---|---|---|
| Texto.Recortar | backend/core/serializers.py:80 | the stripped string has no surrounding space, is empty exactly when the input is all spaces, and is the input between its first and last non-space |
| Texto.RecortarIdempotente | backend/core/serializers.py:12-17 | stripping twice is stripping once |
| Texto.ProhibidoTrasRecortar | backend/core/serializers.py:79-85 | a string has a forbidden character exactly when its stripped form does |
| Texto.Decimal | frontend/src/pages/Personajes.jsx:224-226 | `String(n)`: a non-empty digit string, with a leading "0" only for 0 itself |
| Texto.NumeroDeDecimal | frontend/src/pages/Personajes.jsx:187-189 | `Number(String(n))` is `n` for every id |
| Modelos.EstadoDesdeTexto | backend/core/models.py:33-36 | exactly the three stored texts are states, and parsing is the inverse of `EstadoTexto` |
| Modelos.NuevoPersonaje | backend/core/models.py:38-52 | a created character is VIVO at level 1 with every skill slot NULL |
| Modelos.Limpiar | backend/core/models.py:55-62 | `clean` accepts exactly level ≥ 1 and a name without `< > { } ;`; the level is checked first |
| Modelos.PuedeEditar | backend/core/models.py:64-65 | editable exactly when VIVO or CONGELADO |
| Modelos.RolDesdeTexto | backend/core/models.py:7-10 | exactly the two stored texts are roles, and parsing is the inverse of `RolTexto` |
| Permisos.EsGM | backend/core/permissions.py:10-11 | holds exactly for an authenticated user whose role text is "GM" |
| Permisos.EsPropietarioOGM | backend/core/permissions.py:20-22 | a GM always passes; a non-GM passes exactly on their own character, so never on an unowned one; the anonymous user passes on an unowned character |
| Serializadores.CampoTexto | backend/core/serializers.py:67-69 | a DRF string field accepts exactly a value with a non-space and yields it stripped |
| Serializadores.ValidarNombreCatalogo | backend/core/serializers.py:12-17 | accepted exactly when non-blank after stripping and free of forbidden characters; stored stripped; each refusal has its own message |
| Serializadores.NombreCatalogoEstable | backend/core/serializers.py:12-17 | a stored catalog name validates again to itself |
| Serializadores.NombreCatalogo | backend/core/serializers.py:7-17 | missing, `null`, blank and forbidden names are refused; the validator's "empty" message is never reported |
| Serializadores.ValidarNombrePersonaje | backend/core/serializers.py:79-85 | accepted exactly when the stripped name has ≥ 3 characters and no forbidden one; stored stripped |
| Serializadores.NombreAceptadoEsLimpio | backend/core/serializers.py:83-84 | a name the serializer accepts also passes `Personaje.clean` |
| Serializadores.PropietarioAlCrear | backend/core/serializers.py:72-77 | a GM's character goes to the pool (no owner); anyone else owns what they create |
| Serializadores.CampoNombre | backend/core/serializers.py:67-70 | the name field is accepted exactly when valid, and may be missing only in a partial update |
| Serializadores.CampoClave | backend/core/serializers.py:67-70 | a foreign-key field is accepted exactly when its id has a row; `null` is refused; it may be missing only in a partial update |
| Serializadores.ValidarPersonaje | backend/core/serializers.py:67-92 | accepted exactly when every writable field is; the update serializer ignores race, power and equipment; a full request yields every field; a refused field appears in the error body exactly when it fails |
| Serializadores.Aplicar | backend/core/views.py:77-81 | `save` writes the validated fields and leaves every other column as it was |
| Serializadores.AplicarConserva | backend/core/views.py:77-81 | writing accepted changes keeps the record's references and its `clean` verdict |
| Serializadores.Presentes | backend/core/serializers.py:114-120 | the non-null slot ids in slot order: each id present exactly when some slot holds it, each slot's id at its rank among the non-null slots |
| Serializadores.Opciones | backend/core/serializers.py:114-116 | `get_opciones`: at most 3 ids, exactly the non-null offered slots, the first slot first |
| Serializadores.Seleccion | backend/core/serializers.py:118-120 | `get_seleccion`: at most 2 ids, exactly the non-null chosen slots, the first slot first |
| Serializadores.Entradas | backend/core/serializers.py:116 | one `{id, nombre}` entry per id, with the catalog's name |
| Serializadores.Ids | frontend/src/pages/Personajes.jsx:150 | `.map(o => o.id)`: the ids of the entries, in order |
| Serializadores.FichaDe | backend/core/serializers.py:96-120 | the listing as written: the race, power and equipment names from their catalogs, the owner's username exactly when owned, the offered and chosen skills as `{id, nombre}` entries in slot order (at most 3 and 2), and no race, power or equipment id |
| Serializadores.FichaConIds | backend/core/serializers.py:105-112 | the corrected listing: the listing as written plus the race, power and equipment ids, and nothing else different |
| Serializadores.CampoOpcion | backend/core/serializers.py:150-157 | an option slot field is refused exactly when it names an unknown skill |
| Serializadores.Escribir | backend/core/views.py:118 | in a partial update a missing slot stays, `null` clears it, an id sets it |
| Serializadores.ValidarOpciones | backend/core/serializers.py:150-157 | accepted exactly when every named skill exists; only the three offered slots change; a refused slot is reported |
| Serializadores.IdsOpciones | backend/core/serializers.py:131-133 | the set of non-null offered ids |
| Serializadores.ValidarEleccion | backend/core/serializers.py:124-139 | accepted exactly for a list of 2 distinct integers, both offered; the result is the set of those two; equal values give the "distinct" error |
| Serializadores.GuardarEleccion | backend/core/serializers.py:141-147 | the two chosen ids fill the two selected slots and nothing else changes |
| Serializadores.EleccionConserva | backend/core/serializers.py:137-147 | writing an accepted choice keeps the record's references and `clean` verdict |
| Serializadores.CampoUsuario | backend/core/serializers.py:170-173 | the username is accepted exactly when non-blank and not taken ignoring case |
| Serializadores.CampoEmail | backend/core/serializers.py:175-178 | the email may be blank; a non-blank one must not be in use ignoring case |
| Serializadores.CampoClaveAcceso | backend/core/serializers.py:163-164 | a password is accepted exactly when it has ≥ 6 characters after stripping |
| Serializadores.ValidarRegistro | backend/core/serializers.py:162-195 | accepted exactly when all four fields pass and the passwords agree; the account is a JUGADOR; each failing field is reported, and the mismatch error comes only when every field passes |
| Vistas.Visibles | backend/core/views.py:69-74 | a GM sees every character; anyone else sees exactly their own, and none of the pool |
| Vistas.Disponibles | backend/core/views.py:85-94 | the pool is exactly the characters without an owner |
| Vistas.Admitir | backend/core/views.py:49 | the permission check: the anonymous user gets 401, a non-GM on a GM action gets 403 |
| Vistas.Acceso | backend/core/views.py:69-74 | `get_object` succeeds exactly on an admitted requester's visible character; otherwise 401, 403 or 404 |
| Vistas.ReclamoMueve | backend/core/views.py:105-111 | a claim moves the character from the pool into the claimer's list and moves nothing else |
| Vistas.LiberarDevuelve | backend/core/views.py:174-176 | a release returns the character to the pool and takes it out of its former owner's list |
| Vistas.SeleccionFueraDeOpciones | backend/core/views.py:116-121 | after `set-opciones` a character can have chosen skills that are no longer offered |
| Vistas.ChequearReclamo | backend/core/views.py:97-112 | a claim is accepted exactly for an authenticated requester on an existing, unowned, living character; each refusal has its status and message |
| Vistas.ChequearOpciones | backend/core/views.py:115-121 | accepted exactly for a GM on an existing character with valid slots; only the offered slots change |
| Vistas.ChequearEleccion | backend/core/views.py:124-135 | accepted exactly for the owner of a living character with a valid choice, so a GM who does not own it gets 403; the stored pair is the chosen set |
| Vistas.ChequearNivel | backend/core/views.py:138-151 | accepted exactly for a GM on a living character; the new level is one more |
| Vistas.ChequearEstado | backend/core/views.py:153-161 | accepted exactly for a GM with one of the three state texts; the new state is that text |
| Vistas.EstadoNoDependeDelActual | backend/core/views.py:156-161 | the verdict on a state change does not depend on the current state, so MUERTO → VIVO is allowed |
| Vistas.ChequearActualizacion | backend/core/views.py:64-81 | accepted exactly for a visible character with a valid body that is not dead; a non-GM cannot change race, power or equipment; a dead character is always refused |
| Vistas.ChequearCreacion | backend/core/serializers.py:72-77 | accepted exactly for an authenticated requester with a valid full body; the new character is unowned exactly when a GM made it, is clean, and points at existing rows |
| Vistas.OpcionesIntegra | backend/core/views.py:116-121 | what `set-opciones` writes keeps integrity |
| Vistas.ActualizacionIntegra | backend/core/views.py:77-81 | what an update writes keeps integrity |
| Vistas.EleccionIntegra | backend/core/views.py:124-135 | what a skill choice writes keeps integrity |
| Vistas.CreacionIntegra | backend/core/serializers.py:72-77 | a created character keeps integrity |
| Vistas.Mundo.Quien | backend/core/views.py:49 | the requester is authenticated exactly when the token names an account, with that account's role |
| Vistas.Mundo.FichaGuardada | backend/core/serializers.py:96-120 | a stored character's listing as the program writes it: its fields and names, and no race, power or equipment id |
| Vistas.Mundo.Listar | backend/core/views.py:56-74 | 401 for the anonymous user; otherwise the listing as written (no race, power or equipment id) of exactly the visible characters, all of them for a GM |
| Vistas.Mundo.ListarDisponibles | backend/core/views.py:84-94 | any authenticated requester gets the listing as written of exactly the unowned characters |
| Vistas.Mundo.Elegir | backend/core/views.py:97-112 | on success the requester becomes the owner and only `propietario` changes; on failure nothing changes; validity is kept |
| Vistas.Mundo.SetOpciones | backend/core/views.py:115-121 | on success only the offered slots change and the new listing is returned; on failure nothing changes |
| Vistas.Mundo.ElegirHabilidades | backend/core/views.py:124-135 | on success only the two selected slots change, holding the chosen set; on failure nothing changes |
| Vistas.Mundo.SubirNivel | backend/core/views.py:138-151 | on success only `nivel` rises by one and one SUBIR_NIVEL entry is appended; a dead character gets 400 and nothing changes |
| Vistas.Mundo.CambiarEstado | backend/core/views.py:153-169 | on success only `estado` changes and one CAMBIAR_ESTADO entry is appended; an invalid state gets 400 and nothing changes |
| Vistas.Mundo.Liberar | backend/core/views.py:171-184 | on success only the owner is cleared and one LIBERAR_PERSONAJE entry is appended |
| Vistas.Mundo.Crear | backend/core/serializers.py:72-77 | on success the new character is stored under the next id; on failure nothing changes |
| Vistas.Mundo.Actualizar | backend/core/views.py:76-81 | the record becomes what the update check says; on failure nothing changes |
| Vistas.Mundo.Eliminar | backend/core/views.py:49 | the owner or a GM removes exactly that character |
| Vistas.Mundo.Yo | backend/core/views.py:210-214 | the requester's id, username and role text; 401 for the anonymous user |
| Vistas.Mundo.Registrar | backend/core/views.py:217-239 | a valid registration adds one JUGADOR account under the next id; an invalid one changes nothing and reports the field errors |
| Vistas.Mundo.CrearEntrada | backend/core/views.py:188-206 | a GM adds a catalog entry whose name is validated and stripped, under the next id; otherwise nothing changes |
| Vistas.Mundo.ListarCatalogo | backend/core/views.py:188-206 | only a GM reads a catalog: 401 for the anonymous user, 403 for a player |
| Api.PrefijoB64 | frontend/src/api.js:19 | the longest prefix of `b64token` characters (RFC 6750, section 2.1) |
| Api.Credencial | frontend/src/api.js:19 | a value read as `Bearer 1*SP b64token` yields a `b64token` that it carries after the spaces |
| Api.CredencialDeBearer | frontend/src/api.js:17-21 | the header the interceptor writes reads back as the stored token whenever the token is a `b64token` |
| Api.ConBearer | frontend/src/api.js:17-21 | a truthy token adds exactly `Authorization: Bearer <token>`, which reads back as the token; otherwise the headers are untouched; no other header changes |
| Api.Almacen.Leer | frontend/src/api.js:8 | `leer()` is the stored token, `None` when the key is missing |
| Api.Almacen.Autorizar | frontend/src/api.js:17-21 | a truthy stored token adds exactly `Authorization: Bearer <token>`, which reads back as the stored token; otherwise the headers go out unchanged |
| Api.Almacen.Guardar | frontend/src/api.js:7 | after `guardar(t)`, `leer()` gives `t` |
| Api.Almacen.Limpiar | frontend/src/api.js:9 | after `limpiar()`, both token and role are gone |
| Api.Almacen.Login | frontend/src/api.js:23-33 | sends the login body; on success stores `String(data.access)`; on failure leaves the token |
| Api.Almacen.ObtenerYo | frontend/src/api.js:35-39 | asks with the interceptor's headers; on success stores `data.rol || ""` |
| Api.Almacen.Registrarse | frontend/src/api.js:75-85 | sends the registration body; stores the extracted token exactly when it is not empty |
| Api.CargaLogin | frontend/src/api.js:24-27 | the username is the input between its first and last non-space, and empty exactly when the input is all spaces; the password is sent as typed |
| Api.CargaLoginEstable | frontend/src/api.js:24-27 | building the login body from a built body changes nothing |
| Api.CadenaJs | frontend/src/api.js:7 | `setItem` of a missing value stores "undefined" |
| Api.CargaRegistro | frontend/src/api.js:76-81 | username and email are each their input between its first and last non-space, with no space at either end, and empty exactly when the input is all spaces; the passwords are sent as typed |
| Api.CargaRegistroEstable | frontend/src/api.js:76-81 | building the registration body from a built body changes nothing |
| Api.TokenDeRegistro | frontend/src/api.js:82 | `tokens.access`, else `access`, else "": non-empty exactly when one of them is truthy |
| Rutas.Protegida | frontend/src/App.jsx:9-12 | the child exactly when a truthy token is stored, otherwise a redirect to /login |
| Rutas.SoloGM | frontend/src/App.jsx:15-18 | the child exactly when the role is "GM", otherwise a redirect to /personajes |
| Rutas.Resolver | frontend/src/App.jsx:23-53 | "/" goes to /login, unknown paths to /personajes, /catalogo shows exactly with a token and role GM, and without a token goes to /login |
| Rutas.RedirigeAMenor | frontend/src/App.jsx:23-53 | every redirect leads to a path of smaller rank, so redirects end |
| Rutas.Final | frontend/src/App.jsx:23-53 | the page the browser ends on, for each path, token and role |
| Rutas.NavegarTermina | frontend/src/App.jsx:23-53 | following redirects one at a time lands on `Final` within two steps |
| PaginaLogin.ChequeoLogin | frontend/src/pages/Login.jsx:16-19 | no request exactly when the trimmed username or the password is empty |
| PaginaLogin.MensajeLogin | frontend/src/pages/Login.jsx:26-29 | `detail`, or "Credenciales inválidas." when it is missing or empty; a lockout phrase gives the fixed lockout text |
| PaginaLogin.BloqueoEn | frontend/src/pages/Login.jsx:27-28 | any detail text containing "locked out" or "demasiados intentos", anywhere, shows the lockout text |
| PaginaLogin.Enviar | frontend/src/pages/Login.jsx:13-35 | local check, then login, then whoami, then /personajes; a failure at either call shows its message and clears token and role |
| PaginaRegistro.LongitudJs | frontend/src/pages/Register.jsx:22 | JavaScript length counts UTF-16 units: between the character count and twice it, equal for BMP text |
| PaginaRegistro.ChequeoRegistro | frontend/src/pages/Register.jsx:18-29 | the three checks in order: missing field, then short password, then mismatch; no request exactly when all pass |
| PaginaRegistro.DetalleDe | frontend/src/pages/Register.jsx:38 | `d.detail` is used exactly when it is present and not "" |
| PaginaRegistro.PrimeroDe | frontend/src/pages/Register.jsx:38 | `d[field]?.[0]`: the first message of a field's list |
| PaginaRegistro.MensajeRegistro | frontend/src/pages/Register.jsx:37-38 | the first truthy of `detail`, `username[0]`, `email[0]`, `password2[0]`, then the default |
| PaginaRegistro.MensajeDeUsuario | frontend/src/pages/Register.jsx:38 | when the backend refuses the username, the page shows the backend's username message |
| PaginaRegistro.SinDesacuerdoDeClaves | frontend/src/pages/Register.jsx:26-29 | after the local checks pass, the backend never answers "passwords differ" |
| PaginaRegistro.Enviar | frontend/src/pages/Register.jsx:15-43 | local checks, then register, then whoami, then /personajes; a failure shows its message and keeps the session |
| PaginaPersonajes.NumeroJson | frontend/src/pages/Personajes.jsx:187 | `Number(s)` in JSON: a number exactly for a digit string, `null` for NaN |
| PaginaPersonajes.CampoDeForm | frontend/src/pages/Personajes.jsx:187-189 | "" becomes `null`, a digit string its number |
| PaginaPersonajes.ToInt | frontend/src/pages/Personajes.jsx:258 | "" and `undefined` become `null`, anything else `Number(v)` |
| PaginaPersonajes.IdIdaYVuelta | frontend/src/pages/Personajes.jsx:370 | an id rendered as an `<option value={h.id}>` (here, and alike in the editor's selects at lines 506, 521 and 536) and read back by either conversion is the id |
| PaginaPersonajes.Carga | frontend/src/pages/Personajes.jsx:204-209 | the create/edit body: the name as typed and each select converted |
| PaginaPersonajes.CadenaDeId | frontend/src/pages/Personajes.jsx:224-226 | `String(x || "")`: "" exactly for a missing id or 0 |
| PaginaPersonajes.FormularioDe | frontend/src/pages/Personajes.jsx:220-227 | the form filled from a listed character |
| PaginaPersonajes.CargaDeEdicion | frontend/src/pages/Personajes.jsx:220-227 | an untouched edit sends back the listed ids, and `null` for each missing one |
| PaginaPersonajes.FormularioCompletoAceptado | frontend/src/pages/Personajes.jsx:185-191 | a valid name with an existing row chosen in each select is accepted by `create` |
| PaginaPersonajes.FormularioSinRaza | frontend/src/pages/Personajes.jsx:187 | a race select left empty is refused with "may not be null" on `raza` |
| PaginaPersonajes.EdicionSinCambiosRechazada | frontend/src/pages/Personajes.jsx:220-227 | as written, a GM's untouched edit of any character is refused |
| PaginaPersonajes.EdicionSinCambiosAceptada | frontend/src/pages/Personajes.jsx:200-218 | with the ids listed, an untouched edit writes the character back unchanged |
| PaginaPersonajes.IdONada | frontend/src/pages/Personajes.jsx:151 | `ids[k] \|\| ""`: the k-th id, or "" past the end or for 0 |
| PaginaPersonajes.BorradorDe | frontend/src/pages/Personajes.jsx:150-151 | the seeded draft: box k holds the k-th offered id, or "" past the end (or for 0) |
| PaginaPersonajes.SeleccionSembrada | frontend/src/pages/Personajes.jsx:163 | the seed as written: every selected id, in the listing's order |
| PaginaPersonajes.SeleccionOfrecida | frontend/src/pages/Personajes.jsx:161-164 | the corrected seed: no repeats, exactly the selected ids still offered |
| PaginaPersonajes.Sembrar | frontend/src/pages/Personajes.jsx:148-152 | `forEach` into an object: one entry exactly per listed id |
| PaginaPersonajes.SembrarDistintos | frontend/src/pages/Personajes.jsx:161-164 | with distinct ids, each character's entry is its own seed |
| PaginaPersonajes.PedidoDe | frontend/src/pages/Personajes.jsx:256-264 | the `set-opciones` body: a character without a draft sends three `null`s |
| PaginaPersonajes.BorradorConserva | frontend/src/pages/Personajes.jsx:148-152 | saving the seeded draft untouched is accepted and keeps the offer, same skills in the same order |
| PaginaPersonajes.SinRepetir | frontend/src/pages/Personajes.jsx:284 | `Array.from(new Set(s))`: no repeats, the same members, a duplicate-free list unchanged |
| PaginaPersonajes.Quitar | frontend/src/pages/Personajes.jsx:285 | `delete` removes exactly that id and keeps the list duplicate-free |
| PaginaPersonajes.QuitarAlFinal | frontend/src/pages/Personajes.jsx:285-288 | removing what was just added gives the list back |
| PaginaPersonajes.ToggleSeleccion | frontend/src/pages/Personajes.jsx:282-292 | a selected skill is removed; an absent one is added exactly while fewer than 2 are selected, otherwise the state is unchanged; only that character's entry changes; at most 2 stays at most 2 |
| PaginaPersonajes.ToggleDeshace | frontend/src/pages/Personajes.jsx:285-289 | adding an absent skill and toggling it again restores the selection |
| PaginaPersonajes.ToggleAcotada | frontend/src/pages/Personajes.jsx:420-423 | a click on an offered box keeps the selection duplicate-free, at most 2 and within the offer, and leaves other characters alone |
| PaginaPersonajes.ConfirmarEleccion | frontend/src/pages/Personajes.jsx:294-298 | a request goes out exactly when 2 skills are selected; otherwise the alert |
| PaginaPersonajes.BotonSiEnvia | frontend/src/pages/Personajes.jsx:430 | the save button is enabled exactly when a click sends a request |
| PaginaPersonajes.EnvioAceptado | frontend/src/pages/Personajes.jsx:294-300 | a bounded selection that passes the gate is accepted by the backend, which stores those two |
| PaginaPersonajes.SeleccionAtascada | frontend/src/pages/Personajes.jsx:161-164 | as written, a selection no longer offered is seeded: every offered box refuses a tick, the gate passes, the backend refuses |
| PaginaPersonajes.SembradoComoEscrito | frontend/src/pages/Personajes.jsx:161-164 | as written, each listed character (distinct ids) starts with exactly its selected ids; this is bounded within its offer exactly when the backend's choice is |
| PaginaPersonajes.SembradoLista | frontend/src/pages/Personajes.jsx:161-164 | the same for every character of a list at once |
| PaginaPersonajes.SembradoAcotado | frontend/src/pages/Personajes.jsx:161-164 | with the corrected seed, every listed character starts with a bounded selection of its offered skills |
| PaginaPersonajes.Alerta | frontend/src/pages/Personajes.jsx:278 | `data.detalle`, or the default when it is missing or empty |
| PaginaPersonajes.AlertaDeReclamo | frontend/src/pages/Personajes.jsx:273-281 | a refused claim shows the view's reason for an owned or dead character, and the default otherwise |
| PaginaPersonajes.AlertaDeEleccion | frontend/src/pages/Personajes.jsx:302-305 | a refused choice shows the "dead" reason for a dead character, and the default for every other refusal, the serializer's messages included |
| PaginaPersonajes.TonoDeEstado | frontend/src/pages/Personajes.jsx:308-312 | red exactly for MUERTO, amber exactly for CONGELADO, green otherwise |
| PaginaPersonajes.TonoDeFicha | frontend/src/pages/Personajes.jsx:308-312 | on a listed state the three tones are the three states |
| PaginaPersonajes.Pagina.constructor | frontend/src/pages/Personajes.jsx:105-113 | the state on first render |
| PaginaPersonajes.Pagina.CargarGM | frontend/src/pages/Personajes.jsx:132-154 | both lists come from the listings, and one seeded draft per character |
| PaginaPersonajes.Pagina.CargarJugador | frontend/src/pages/Personajes.jsx:156-166 | both lists come from the listings; each character's selection is every id the listing selects; the page is coherent when ids are distinct and every backend choice is bounded and still offered |
| PaginaPersonajes.Pagina.Alternar | frontend/src/pages/Personajes.jsx:423 | a click toggles the selection, and a click on an offered box keeps the page coherent |
| PaginaPersonajes.Pagina.Confirmar | frontend/src/pages/Personajes.jsx:293-306 | the gate's alert, no alert on success, and the `detalle`-or-default alert on a refusal |
| PaginaPersonajes.Pagina.Elegir | frontend/src/pages/Personajes.jsx:273-281 | no alert on success; the `detalle`-or-default alert on a refusal |
| PaginaPersonajes.Pagina.CambiarOpcion | frontend/src/pages/Personajes.jsx:362-366 | that box of that character's draft takes the value; the other boxes and characters are unchanged |
| PaginaPersonajes.Pagina.GuardarOpciones | frontend/src/pages/Personajes.jsx:256-270 | sends the draft's body; a failure shows the fixed alert |
| PaginaPersonajes.Pagina.PrepararEdicion | frontend/src/pages/Personajes.jsx:220-229 | the edit id and the form filled from the character |
| PaginaPersonajes.Pagina.Cancelar | frontend/src/pages/Personajes.jsx:548-551 | ends the edit and empties the form |
| PaginaPersonajes.Pagina.Crear | frontend/src/pages/Personajes.jsx:181-198 | a success empties the form; a failure keeps it and shows "Error creando personaje" |
| PaginaPersonajes.Pagina.GuardarCambios | frontend/src/pages/Personajes.jsx:200-218 | a success empties the form and clears the edit id; a failure keeps both and shows "Error guardando cambios" |
| PaginaPersonajes.PatronExcluyeProhibidos | frontend/src/pages/Personajes.jsx:494 | a name the input's `pattern` lets through has none of the characters `clean` forbids |
| PaginaPersonajes.GuionBloqueado | frontend/src/pages/Personajes.jsx:494 | "Ana-Luz" is blocked by the browser though the backend accepts it |
| PaginaPersonajes.Pagina.Enviar | frontend/src/pages/Personajes.jsx:486-495 | a non-empty name outside `^[a-zA-Z0-9áéíóúÁÉÍÓÚñÑ ]+$` sends nothing and changes nothing; otherwise edits while the edit id is truthy and creates otherwise; after a success the form is empty and no edit is open |

## Left out

- HTTP, axios, DRF routing, status rendering and pagination. Each endpoint is a method on an in-memory store, and each page call takes the server's answer as a parameter.
- JWT issuance, expiry and refresh, and password hashing. A verified token is the account id it names.
- The django-axes lockout counter and any rate limit. The login page's handling of the lockout message is modelled.
- Database uniqueness of character and catalog names, `max_length`, Django's username character validator and the email format check are not modelled. These are database or library rules, not the repository's code. The username's exact-match uniqueness is kept, because the registration message depends on it.
- Catalog update, delete and retrieve, and character retrieve: plain ModelViewSet actions with no rules of the repository's own.
- `on_delete` cascades and `SET_NULL`. Deleting a catalog entry is not modelled, so nothing dangles.
- Audit timestamps and detail strings. An entry is who did what.
- A single id counter serves every table. This is a simplification of per-table sequences. It only guarantees fresh ids.
- JavaScript `Number` on spaces, signs, hex and exponents. The selects only hold "" or an id's decimal form. `Number("")` is never reached, because both conversions test for "" first.
- Unicode case folding. `__iexact` is modelled as ASCII folding.
- Router case-insensitivity and trailing slashes.
- A network error without a response: every failure carries a body.
- The name input's `maxLength` of 50: the browser only stops typing past it, and a longer stored name is not modelled. The `pattern` check is modelled in `Pagina.Enviar`.
- Rendering, scroll preservation, `confirm` and `alert` dialogs, `window.location`, and the `cargando` flags.
- `Promise.all` and async ordering. A reload after a success is the caller calling `Pagina.CargarGM` or `Pagina.CargarJugador` with the new listings. The first loads' "Error cargando datos." message is not modelled.
- The page's catalog lists, and the `eliminar`, `subirNivel`, `cambiarEstado` and `liberar` handlers. Each is one request plus a fixed alert. The backend side of each is modelled in `Vistas.Mundo`.
- The Catalogo and Header pages, and the mock server.
- Vistas.ChequearEleccion: does not fix which chosen id lands in `habilidad1`, because `list(set(...))` has an order of Python's own. Only the set of the two slots is stated.
- Vistas.Mundo.ElegirHabilidades: the same set-only statement of the two slots.
- PaginaPersonajes.EdicionSinCambiosAceptada: assumes no race, power or equipment id is 0, because `String(0 || "")` is "". Database ids start at 1.
- PaginaPersonajes.BorradorConserva: assumes no offered id is 0, for the same reason.
- PaginaPersonajes.SeleccionAtascada: requires both selected skills to be out of the offer and distinct. Partial overlaps are not covered.

## Findings

| source | as written | input that shows it | evidently intended | confidence | as-written member | corrected member |
|---|---|---|---|---|---|---|
| backend/core/serializers.py:105-112 | `PersonajeListaSerializer` lists race, power and equipment only by name, but `prepararEdicion` reads `p.raza`, `p.poder`, `p.equipamiento` as ids, so the form gets "" and `guardarCambios` sends three `null`s | a GM opens "Editar" on any character and saves without touching the selects: the PATCH is refused with "This field may not be null." on `raza`, `poder` and `equipamiento` | the listing carries the three ids, so an untouched edit writes the character back | not executed | PaginaPersonajes.EdicionSinCambiosRechazada | PaginaPersonajes.EdicionSinCambiosAceptada |
| frontend/src/pages/Personajes.jsx:161-164 | `cargarJugador` seeds the selection with every chosen id, even ones the GM has since stopped offering (`set-opciones` does not clear the choice) | skills 1 and 2 offered and chosen; the GM changes the offer to 3 and 4: the page shows boxes 3 and 4 unticked, every tick is refused because two are "selected", the button is enabled, and the backend refuses the pair | the seed keeps only the chosen ids still offered, so the player can pick two offered skills | not executed | PaginaPersonajes.SeleccionAtascada | PaginaPersonajes.SembradoAcotado |

The store and the page follow the code as written. The corrected definitions sit beside them, with the intended property proved:
- `Vistas.Mundo.FichaGuardada`, and so every listing the store returns, is `Serializadores.FichaDe`: no race, power or equipment id. `Serializadores.FichaConIds` is the corrected listing, and `PaginaPersonajes.EdicionSinCambiosAceptada` is proved over it.
- `PaginaPersonajes.Pagina.CargarJugador` seeds with `PaginaPersonajes.SeleccionSembrada`: every selected id. `PaginaPersonajes.SeleccionOfrecida` is the corrected seed, and `PaginaPersonajes.SembradoAcotado` is proved over it.
- `Vistas.SeleccionFueraDeOpciones` shows that the second finding's starting state can be reached on the backend.
