# Frontend-Plantas client rules in Dafny

This project models the client-side rules of the Frontend-Plantas web
application. The application is a nursery shop with a logistics back office:
customers browse the plant catalogue, fill a cart, place and rate orders, and
register or reset a password, while logistics staff pick ready orders, build
delivery routes and manage vehicles. Everything that runs on the server is
outside the model. The model covers what the browser code decides:

- **Logistics.** The order picker of the ready-orders page and the hand-off of
  its selection to the route form through the `pedidos` URL parameter; the
  route form's checks and request (`CrearRuta`); the state-gated actions,
  badges, labels and progress of the route pages (`DetalleRuta`, `ListaRutas`,
  `LogisticaDashboard`); the route-list query (`LogisticaService`); and the
  vehicle form and payload (`GestionVehiculos`).
- **Cart.** The keyed list of the cart context, as list functions (`CartItems`)
  and as the provider object whose `items` state the operations replace
  (`CartContext`).
- **Order intake.** The checkout page's checks and request (`CreateOrder`), and
  the service's choice between a multipart form and a JSON body
  (`PedidoService`). The multipart form is proved to carry the same order as
  the JSON body.
- **Small pages.** The order list's filter, counts, gates and rating dialog
  (`OrderList`); the catalogue's quantities, search and description
  (`PlantList`); the sign-up checks (`Register`); the three-step password reset
  (`ForgotPassword`); the route guard (`ProtectedRoute`); and the session store
  over the browser's key/value storage (`AuthContext`).

Shared modules hold the JavaScript behaviour those pages rely on:

- `Text` covers `split`/`join`, `parseInt`, number-to-text, case mapping and `trim`.
- `Url` covers `URLSearchParams` serialisation and lookup.
- `OrderedSet` covers a JavaScript `Set` as an insertion-ordered list without
  duplicates.
- `Types` holds the order states and records.
- `Wrappers` holds `Option`.

Network calls, e-mails, random numbers and storage reads are parameters of the
operations: an outcome datatype stands for each reply.

## Model

| member | source | states |
|---|---|---|
| OrderedSet.Add | src/pages/CrearRuta.tsx:110-115 | `Set.add`: the element is in the result, nothing else is added, a present element leaves the list as it was and a new one goes at the end; no duplicates appear |
| OrderedSet.Remove | src/pages/PedidosListos.tsx:35-37 | `Set.delete`: exactly the element leaves, the rest stay, duplicate-freedom is kept, an absent element changes nothing |
| OrderedSet.FromSeq | src/pages/CrearRuta.tsx:65 | `new Set(list)`: the result has no duplicates and holds exactly the list's elements |
| OrderedSet.FromSeqNoDup | src/pages/CrearRuta.tsx:65 | a list without duplicates becomes a set with the same elements in the same order |
| OrderedSet.Toggle | src/pages/PedidosListos.tsx:33-41 | the toggled element's membership flips, every other element's stays, no duplicates appear |
| OrderedSet.RemovePresentLength | src/pages/PedidosListos.tsx:35-36 | deleting a present element shrinks the set by exactly one |
| OrderedSet.ToggleTwice | src/pages/PedidosListos.tsx:33-41 | toggling twice restores the members, and restores the list itself when the element was absent |
| OrderedSet.RemoveLast | src/pages/CrearRuta.tsx:108-116 | removing an element just appended gives back the list before it |
| OrderedSet.NoDupCard | src/pages/PedidosListos.tsx:44 | a list without duplicates has as many elements as its set (the `size` read by select-all) |
| Text.Split | src/pages/CrearRuta.tsx:64 | `split(',')` yields at least one piece and no piece contains the separator |
| Text.Join | src/pages/PedidosListos.tsx:57 | `join(',')` of no pieces is empty, and of one piece is that piece |
| Text.SplitJoin | src/pages/CrearRuta.tsx:64 | splitting a join of separator-free pieces gives back the pieces |
| Text.JoinHasNo | src/pages/PedidosListos.tsx:57 | a join contains no character absent from its pieces and different from the separator |
| Text.IndexOfAfterPrefix | src/pages/CrearRuta.tsx:64 | the first separator after a separator-free prefix is found right after it |
| Text.NatToString | src/pages/PedidosListos.tsx:57 | a natural number's decimal text is a non-empty run of digits |
| Text.IntToString | src/pages/PedidosListos.tsx:57 | a number's decimal text is never empty |
| Text.ParseInt | src/pages/CrearRuta.tsx:64 | `parseInt` of a text that holds no digit at all is NaN |
| Text.DigitRun | src/pages/CrearRuta.tsx:64 | the leading digit run that `parseInt` reads is all digits and stops at the first non-digit |
| Text.SkipSpaces | src/pages/CrearRuta.tsx:64 | `parseInt`'s leading white-space skip removes white space only and keeps a suffix that does not start with white space |
| Text.DigitsValueOfNat | src/pages/CrearRuta.tsx:64 | the digits of a natural number's text have that number as their value |
| Text.ParseIntToString | src/pages/CrearRuta.tsx:64 | `parseInt` of a number's decimal text is that number, negative ones included |
| Text.IntToStringHasNo | src/pages/PedidosListos.tsx:57 | a number's text contains only digits and the minus sign, so no ',' or '&' |
| Text.ToLower | src/pages/PlantList.tsx:66-69 | `toLowerCase` keeps the length and maps upper-case ASCII letters to lower case, leaving other characters |
| Text.ToUpper | src/pages/GestionVehiculos.tsx:287 | `toUpperCase` keeps the length and maps lower-case ASCII letters to upper case, leaving other characters |
| Text.Trim | src/pages/CreateOrder.tsx:135 | `trim` cuts white space only, at the front and at the back, and what remains has no white space at either end |
| Text.TrimEnd | src/pages/CreateOrder.tsx:135 | the cut is a suffix made of white space only, and what remains is a prefix that does not end in white space |
| Text.IncludesAt | src/pages/PlantList.tsx:71-73 | a text includes every text that starts at one of its positions |
| Url.Pairs | src/api/logisticaService.ts:150 | each parameter becomes its own `key=value` piece, in order |
| Url.Get | src/pages/CrearRuta.tsx:62 | `searchParams.get`: None exactly when no parameter has the key, otherwise the first one's value |
| Url.Serialize | src/api/logisticaService.ts:150 | `params.toString()` of no parameters is empty, and of one parameter is `key=value` |
| Url.ParseQuery | src/pages/CrearRuta.tsx:29 | an empty query string has no parameters, and no query has more parameters than '&'-separated pieces |
| Url.QueryOf | src/pages/PedidosListos.tsx:58 | the query of a URL is what follows its first '?', and empty when it has none |
| Url.ParseSerialize | src/api/logisticaService.ts:146-150 | parsing `params.toString()` gives back the appended parameters when their texts carry no separators |
| Url.PiecesOfPairs | src/api/logisticaService.ts:150 | the `key=value` pieces parse back into the parameters |
| Url.QueryOfAppended | src/pages/PedidosListos.tsx:58 | the query read from `path?query` is `query` when the path has no '?' |
| Url.QueryAfter | src/api/logisticaService.ts:150 | the query of a URL whose head ends in its only '?' is the text after it |
| Url.ReadBack | src/api/logisticaService.ts:146-150 | the parameters of a URL built from a head and serialised parameters read back unchanged |
| Types.ParseEstado | src/types.ts:95 | an order state's wire name is recognised only as that state |
| Types.ParseEstadoName | src/types.ts:95 | every order state is recognised by its own name, so the seven names differ |
| LogisticaService.ParseRouteState | src/api/logisticaService.ts:94 | a route state's wire name is recognised only as that state |
| LogisticaService.ParseRouteStateName | src/api/logisticaService.ts:94 | every route state is recognised by its own name, so the seven names differ |
| LogisticaService.RutasQuery | src/api/logisticaService.ts:146-148 | no filters give no parameters; `estado` is present exactly when given non-empty and `departamento` exactly when non-zero, each once, so there are exactly as many parameters as filters given; `estado` comes first |
| LogisticaService.RutasUrl | src/api/logisticaService.ts:145-150 | no filters request `/rutas/?`; otherwise the server reads back exactly the filters given |
| LogisticaService.PedidosDisponiblesShape | src/api/logisticaService.ts:234 | the ready-orders URL is `/pedidos/?` with the one parameter `estado=listo_entrega` |
| LogisticaService.VehiculosDisponiblesShape | src/api/logisticaService.ts:190 | the active-vehicles URL is `/vehiculos/?` with the one parameter `activo=true` |
| LogisticaService.PedidosDisponiblesFilter | src/api/logisticaService.ts:234 | the server reads exactly one filter from the ready-orders URL, `estado=listo_entrega` |
| LogisticaService.VehiculosDisponiblesFilter | src/api/logisticaService.ts:190 | the server reads exactly one filter from the active-vehicles URL, `activo=true` |
| CrearRuta.TogglePedido | src/pages/CrearRuta.tsx:108-116 | the copied set gains the id when absent and loses it when present; it stays free of duplicates |
| CrearRuta.ToggleEtiqueta | src/pages/CrearRuta.tsx:118-124 | the tag's membership flips, other tags stay, a new tag is appended at the end, a duplicate-free list stays duplicate-free |
| CrearRuta.ToggleEtiquetaOffered | src/pages/CrearRuta.tsx:20-25 | toggling an offered tag keeps the list within the four offered tags |
| CrearRuta.ToggleEtiquetaTwice | src/pages/CrearRuta.tsx:118-124 | toggling a tag twice restores the tags, and the list itself when the tag was absent |
| CrearRuta.ParseAll | src/pages/CrearRuta.tsx:64 | `map(id => parseInt(id))`: one number per piece, in order |
| CrearRuta.InitialSelection | src/pages/CrearRuta.tsx:62-66 | a missing or empty `pedidos` parameter selects nothing; otherwise the selection is exactly the parsed pieces, without duplicates |
| CrearRuta.Validate | src/pages/CrearRuta.tsx:130-153 | the first missing field among name, technician, date and department gives its message, and with all four present an empty selection gives the orders message; no message exactly when all are present and the selection is non-empty |
| CrearRuta.BuildRequest | src/pages/CrearRuta.tsx:158-171 | the six fixed fields are always set, the ids are the selection; each of the five optional fields is present exactly when its input is non-empty |
| CrearRuta.SelectedId | src/pages/CrearRuta.tsx:167 | an option chosen by id is sent as that id |
| CrearRuta.ErrorMessage | src/pages/CrearRuta.tsx:180-183 | `detail \|\| error \|\| 'Error al crear ruta'`: the server's `detail` when non-empty, else its `error` when non-empty, else the generic text |
| CrearRuta.Submit | src/pages/CrearRuta.tsx:128-186 | a failed check sends nothing and shows its message; otherwise the request sent is exactly the one the form describes (each optional field present exactly when its input is non-empty), success leads to the route page and failure shows the error |
| CrearRuta.SelectedAvailable | src/pages/CrearRuta.tsx:189-194 | the counted orders are exactly the available ones whose id is selected |
| CrearRuta.CountBound | src/pages/CrearRuta.tsx:189-194 | the count never exceeds the selection, and equals it exactly when every selected id is available |
| PedidosListos.ToggleSelection | src/pages/PedidosListos.tsx:33-41 | the id's membership flips and the selection stays free of duplicates |
| PedidosListos.SelectAll | src/pages/PedidosListos.tsx:43-49 | a selection as large as the list is cleared; otherwise every listed id is selected, without duplicates |
| PedidosListos.SelectAllTwice | src/pages/PedidosListos.tsx:43-49 | with distinct ids, select-all selects the list in order and a second press clears it |
| PedidosListos.Strings | src/pages/PedidosListos.tsx:57 | each id is rendered as its decimal text, in order |
| PedidosListos.CrearRutaAction | src/pages/PedidosListos.tsx:51-59 | an empty selection only alerts; otherwise the route form is opened with exactly the selection |
| PedidosListos.CreateDisabledIffAlert | src/pages/PedidosListos.tsx:84 | the button is disabled exactly when pressing it would only alert |
| PedidosListos.CreateDisabled | src/pages/PedidosListos.tsx:84 | the create-route button is disabled exactly when the selection is empty (its partner is `CreateDisabledIffAlert`) |
| PedidosListos.IdList | src/pages/PedidosListos.tsx:57 | the selected ids rendered and joined with ',' (its properties are proved in `SplitIdList`) |
| PedidosListos.Ints | src/pages/PedidosListos.tsx:57 | each id stands for the number `parseInt` reads from its text |
| PedidosListos.HandOffQuery | src/pages/PedidosListos.tsx:58 | the route form reads the `pedidos` parameter back unchanged |
| PedidosListos.ParseStrings | src/pages/PedidosListos.tsx:57 | parsing the rendered ids gives back the ids |
| PedidosListos.SplitIdList | src/pages/PedidosListos.tsx:57 | the joined ids are non-empty, carry no '&' and split back into the rendered ids |
| PedidosListos.IntsNoDup | src/pages/PedidosListos.tsx:57 | distinct ids stay distinct as parsed numbers |
| PedidosListos.HandOff | src/pages/CrearRuta.tsx:62-66 | the route form starts with exactly the ids selected on the ready-orders page, in order |
| DetalleRuta.BadgeClass | src/pages/DetalleRuta.tsx:77-88 | exactly the three moving states share `badge-primary`; exactly the unknown states get `badge-default` |
| DetalleRuta.BadgeGroups | src/pages/DetalleRuta.tsx:77-88 | two states share a badge exactly when both are moving states or they are the same state |
| DetalleRuta.Label | src/pages/DetalleRuta.tsx:90-101 | an unknown state is shown as its raw text; a non-empty state never gets an empty label |
| DetalleRuta.LabelsDistinct | src/pages/DetalleRuta.tsx:90-101 | the seven labels differ, and none is itself a state name |
| DetalleRuta.EtiquetaEmoji | src/pages/DetalleRuta.tsx:103-111 | every tag, known or not, gets the default marker |
| DetalleRuta.Progress | src/pages/DetalleRuta.tsx:138-140 | 0 when there are no orders; otherwise progress times the total equals delivered times 100 |
| DetalleRuta.ProgressBounds | src/pages/DetalleRuta.tsx:138-140 | with delivered at most total, progress lies between 0 and 100, reaching 100 exactly when all are delivered |
| DetalleRuta.AccionesFor | src/pages/DetalleRuta.tsx:162-178 | start and delete exactly in `planificada`, finish exactly in the moving states, never start and finish together |
| DetalleRuta.AccionesByState | src/pages/DetalleRuta.tsx:162-178 | by state: only `planificada` starts, only the moving states finish, `asignada`, `completada` and `cancelada` offer nothing |
| DetalleRuta.FinalizarIffPrimary | src/pages/DetalleRuta.tsx:173-177 | finish is offered exactly for the states with the primary badge |
| DetalleRuta.PriorityLabel | src/pages/DetalleRuta.tsx:369-370 | 'Alta' exactly for 1, 'Media' exactly for other values up to 3, 'Normal' exactly above 3 |
| DetalleRuta.PriorityClass | src/pages/DetalleRuta.tsx:368 | the class is `prioridad-` and the priority's number, 5 for a falsy priority |
| DetalleRuta.ZeroPriorityMismatch | src/pages/DetalleRuta.tsx:368-370 | priority 0 is coloured as 5 ('Normal') but labelled 'Media' |
| ListaRutas.FiltroFor | src/pages/ListaRutas.tsx:22 | an empty select sends no filter; otherwise exactly the chosen state and no department |
| ListaRutas.FiltroOptionsPlain | src/pages/ListaRutas.tsx:22 | every offered state reaches the server intact through the query |
| ListaRutas.DeleteAgreesWithDetalle | src/pages/ListaRutas.tsx:192 | delete is enabled in the list exactly when the detail page offers it |
| ListaRutas.DeleteDisabled | src/pages/ListaRutas.tsx:192 | the delete button is disabled for every state but `planificada` (its partner is `DeleteAgreesWithDetalle`) |
| ListaRutas.ResultText | src/pages/ListaRutas.tsx:120 | the result text starts with the count followed by " ruta" |
| ListaRutas.ResultTextPlural | src/pages/ListaRutas.tsx:120 | the text ends in 's' exactly when the count is not 1, and then says "rutas" |
| LogisticaDashboard.ActiveRoutes | src/pages/LogisticaDashboard.tsx:32 | the active list keeps exactly the routes in `en_progreso` or `planificada` |
| LogisticaDashboard.IsActive | src/pages/LogisticaDashboard.tsx:32 | a route is active when it is `en_progreso` or `planificada` (its partners are `ActiveRoutes` and `ActiveRoutesIdempotent`) |
| LogisticaDashboard.ActiveRoutesAppend | src/pages/LogisticaDashboard.tsx:32 | the filter keeps the routes' order |
| LogisticaDashboard.ActiveRoutesIdempotent | src/pages/LogisticaDashboard.tsx:32 | filtering the active list again changes nothing |
| LogisticaDashboard.BadgeClass | src/pages/LogisticaDashboard.tsx:42-50 | only four states have a badge of their own; every other state gets `badge-default` |
| LogisticaDashboard.BadgeVersusDetalle | src/pages/LogisticaDashboard.tsx:42-50 | three states look as on the detail page; `en_progreso` gets the detail page's `asignada` colour; the other three moving states get the default |
| LogisticaDashboard.Label | src/pages/LogisticaDashboard.tsx:52-60 | a state without a label of its own is shown verbatim |
| LogisticaDashboard.LabelVersusDetalle | src/pages/LogisticaDashboard.tsx:52-60 | the four labelled states read as on the detail page; the other three are shown as raw state names |
| LogisticaDashboard.Progress | src/pages/LogisticaDashboard.tsx:232 | with no zero guard the width is finite exactly when there are orders; 0/0 is NaN |
| LogisticaDashboard.ProgressVersusDetalle | src/pages/LogisticaDashboard.tsx:232 | with orders the dashboard and the detail page agree; without orders the detail page shows 0 and the dashboard does not |
| GestionVehiculos.OpenModal | src/pages/GestionVehiculos.tsx:54-91 | without a vehicle the form is the empty one (`camion`, active); with one, it becomes the one being edited and all thirteen form fields are copied from it, numbers as their decimal text and null texts as '' |
| GestionVehiculos.IntText | src/pages/GestionVehiculos.tsx:62-68 | `x?.toString() \|\| ''`: empty exactly for null, and otherwise a text `parseInt` reads back as the same number |
| GestionVehiculos.OrEmpty | src/pages/GestionVehiculos.tsx:64-67 | `x \|\| ''`: a null text shows as '' (its partner is `OrEmptyRoundTrip`) |
| GestionVehiculos.BuildPayload | src/pages/GestionVehiculos.tsx:102-117 | the six fixed fields are copied; each of the seven optional fields is present exactly when its input is non-empty |
| GestionVehiculos.AddMeasures | src/pages/GestionVehiculos.tsx:112-115 | the four measure assignments set each measure exactly when given and touch nothing else |
| GestionVehiculos.IntTextRoundTrip | src/pages/GestionVehiculos.tsx:62 | a nullable number copied into the form is sent back as that number, or left out when null |
| GestionVehiculos.OrEmptyRoundTrip | src/pages/GestionVehiculos.tsx:63-69 | a nullable text copied into the form is sent back, or left out when null or empty |
| GestionVehiculos.UnchangedEditSendsSame | src/pages/GestionVehiculos.tsx:55-117 | saving an opened vehicle without edits sends back all of its thirteen fields: the copied texts unchanged, the year and the carrier as the same numbers or left out when null, each nullable text when non-empty |
| GestionVehiculos.Submit | src/pages/GestionVehiculos.tsx:98-133 | the payload is exactly the one the form describes, sent as an update of the edited vehicle's id exactly in edit mode and as a create otherwise; the modal closes exactly on success |
| GestionVehiculos.Find | src/pages/GestionVehiculos.tsx:149 | None exactly when no carrier has the id; otherwise the first listed carrier with that id |
| GestionVehiculos.TransportistaNombre | src/pages/GestionVehiculos.tsx:147-151 | 'Sin asignar' for a null or 0 id, the listed carrier's name when non-empty, 'Desconocido' otherwise |
| GestionVehiculos.TransportistaNombreFound | src/pages/GestionVehiculos.tsx:147-151 | with distinct ids, a listed carrier with a name is shown by that name |
| GestionVehiculos.PlacaInput | src/pages/GestionVehiculos.tsx:287-289 | the plate is the typed text cut to its first 10 characters, each lower-case ASCII letter upper-cased and every other character kept |
| GestionVehiculos.PlacaInputIdempotent | src/pages/GestionVehiculos.tsx:287-289 | typing an already entered plate again changes nothing |
| CartItems.FindIndex | src/context/CartContext.tsx:37 | `findIndex`: -1 exactly when no entry has the id; otherwise the first such entry |
| CartItems.AddItem | src/context/CartContext.tsx:37-47 | a new plant is appended with its amount; a present plant's entry gains the amount in place, with length and the other entries unchanged |
| CartItems.RemoveItem | src/context/CartContext.tsx:51-53 | exactly the plant's entries leave; the rest stay |
| CartItems.UpdateQuantity | src/context/CartContext.tsx:55-68 | a non-positive amount is `removeItem`; a positive one sets that plant's entries and keeps everything else |
| CartItems.TotalAppend | src/context/CartContext.tsx:74-76 | the item total of two carts joined is the sum of their totals |
| CartItems.TotalUpdateAt | src/context/CartContext.tsx:74-76 | changing one entry's amount changes the total by the difference |
| CartItems.AddItemTotal | src/context/CartContext.tsx:35-48 | adding raises the item total by exactly the amount |
| CartItems.AddItemUnique | src/context/CartContext.tsx:37-47 | adding keeps plant ids unique |
| CartItems.AddThenRemove | src/context/CartContext.tsx:51-53 | removing a plant after adding it is the same as removing it before |
| CartItems.RemoveAppend | src/context/CartContext.tsx:52 | removal keeps the order of the remaining entries |
| CartItems.RemoveUpdated | src/context/CartContext.tsx:52 | removing a plant forgets any earlier change of its amount |
| CartItems.RemoveAbsent | src/context/CartContext.tsx:52 | removing a plant that is not in the cart changes nothing |
| CartItems.UpdateQuantityTotal | src/context/CartContext.tsx:61-67 | with unique ids, setting a plant's amount changes the total by the difference |
| CartContext.CartProvider.constructor | src/context/CartContext.tsx:24-28 | the provider starts from the restored entries |
| CartContext.CartProvider.Add | src/context/CartContext.tsx:35-49 | the new state is `AddItem` of the old; the total rises by the amount; unique ids stay unique |
| CartContext.CartProvider.Remove | src/context/CartContext.tsx:51-53 | the new state is `RemoveItem` of the old |
| CartContext.CartProvider.Update | src/context/CartContext.tsx:55-68 | the new state is `UpdateQuantity` of the old, going through removal for a non-positive amount |
| CartContext.CartProvider.Clear | src/context/CartContext.tsx:70-72 | the cart is empty and its total is 0 |
| CartContext.CellIndex | src/context/CartContext.tsx:37 | `findIndex` over the entry objects: the first entry holding the plant's id, and -1 exactly when none does |
| CartItems.TotalItems | src/context/CartContext.tsx:74-76 | `getTotalItems` is never negative over non-negative quantities, and at least the number of entries when every quantity is positive |
| CartContext.CartProvider.Total | src/context/CartContext.tsx:74-76 | the provider's total counts at least one plant per entry when every quantity is positive |
| CartContext.AddItemUpdater | src/context/CartContext.tsx:36-48 | as written: a present plant's shared entry object gains the amount, every other entry object keeps its amount and the array is the same; a new plant gets a fresh entry at the end and no entry changes |
| CartContext.StrictModeAddTwice | src/context/CartContext.tsx:41-42 | run twice on the same previous state, as StrictMode does, the plant gains twice the amount and every other entry keeps its amount |
| CartContext.PureAddOnce | src/context/CartContext.tsx:37-43 | the copying updater adds the amount once to the plant's entry |
| CreateOrder.Validate | src/pages/CreateOrder.tsx:117-125 | an empty cart is refused first, then a missing municipality; no message exactly when neither applies |
| CreateOrder.TrimFullName | src/pages/CreateOrder.tsx:135 | two given names without outer spaces are joined by one space and left untrimmed |
| CreateOrder.ContactName | src/pages/CreateOrder.tsx:135 | the contact name when given, otherwise the trim of `nombres + ' ' + apellidos`, which is exactly that text when both names are given without outer white space, and empty when nothing is given |
| CreateOrder.OptionalText | src/pages/CreateOrder.tsx:153-154 | `value \|\| undefined`: absent exactly when empty |
| CreateOrder.Detalles | src/pages/CreateOrder.tsx:158-162 | one order line per cart entry, in cart order, with the plant id, amount and unit price |
| CreateOrder.DetallesTotal | src/pages/CreateOrder.tsx:544 | the lines ask for as many plants as the summary's plant total |
| CreateOrder.DetallesUnique | src/pages/CreateOrder.tsx:158-162 | a cart with unique plants gives lines with unique plant ids |
| CreateOrder.BuildRequest | src/pages/CreateOrder.tsx:131-169 | the contact name rule; the client's names, the billing NIT, name and address, the delivery reference and populated centre, the payment remark, the deposit number and the remarks always sent as typed; the deposit date and amount as typed, left out exactly when empty; channel 'web'; the receipt; the phone, delivery address, municipality and payment type as typed; one order line per cart entry, in cart order, asking for the cart's total |
| CreateOrder.ErrorMessage | src/pages/CreateOrder.tsx:178-182 | `detail`, then `message`, then the generic text, skipping empty texts |
| CreateOrder.Submit | src/pages/CreateOrder.tsx:114-186 | a failed check sends nothing and keeps the cart; the cart is cleared only after a successful create; a failure shows the error |
| CreateOrder.QuantityInput | src/pages/CreateOrder.tsx:515 | `parseInt(value) \|\| 1`: never 0, the number read when truthy, 1 otherwise |
| CreateOrder.QuantityInputOf | src/pages/CreateOrder.tsx:515 | a positive amount typed reads back as that amount |
| CreateOrder.ChangeQuantity | src/pages/CreateOrder.tsx:95-99 | only a positive amount reaches `updateQuantity`; a negative one changes nothing; the cart keeps its length and its entries' plants |
| CreateOrder.QuantityStaysPositive | src/pages/CreateOrder.tsx:95-99 | whatever is typed, every entry keeps a positive amount |
| PedidoService.Canal | src/api/pedidoService.ts:67 | `canal_origen \|\| 'web'`: the given channel when truthy, 'web' otherwise |
| PedidoService.JsonPayload | src/api/pedidoService.ts:84-108 | the JSON body copies each of the seventeen request fields unchanged (the payment type as its wire name) and the lines unchanged, with the channel defaulted to 'web' |
| PedidoService.HeaderFields | src/api/pedidoService.ts:36-67 | one field per append, in append order, under its key |
| PedidoService.EmitMembers | src/api/pedidoService.ts:36-67 | the entries appended are exactly the values of the fields that are not skipped |
| PedidoService.EmitSnoc | src/api/pedidoService.ts:36-67 | one more field appends its entry, if any, after the others |
| PedidoService.DetailEntries | src/api/pedidoService.ts:70-74 | three entries per order line |
| PedidoService.DetailEntriesSnoc | src/api/pedidoService.ts:70-74 | a further line appends its three entries at the end |
| PedidoService.AppendIfTruthy | src/api/pedidoService.ts:39 | `if (value) formData.append(...)`: one entry more exactly when the value is truthy |
| PedidoService.EncodeHeader | src/api/pedidoService.ts:36-67 | the appends before the lines produce the header entries, in order |
| PedidoService.EncodeMultipart | src/api/pedidoService.ts:33-74 | the form is the header entries followed by the entries of every line in line order, three per line |
| PedidoService.CreatePedido | src/api/pedidoService.ts:30-112 | multipart exactly when a receipt is given, JSON otherwise |
| PedidoService.Lookup | src/api/pedidoService.ts:70-74 | reading a form key finds nothing exactly when no entry has it |
| PedidoService.DecodeDetailEntries | src/api/pedidoService.ts:70-74 | reading the line entries back by their numbered keys gives the lines, in order |
| PedidoService.DecodeFirstLine | src/api/pedidoService.ts:71-73 | a line's three entries before the later lines' entries decode to that line followed by the later ones |
| PedidoService.DecodeLine | src/api/pedidoService.ts:71-73 | one line's `pilon`, `cantidad`, `precio_unitario` entries decode to that line |
| PedidoService.LinePart | src/api/pedidoService.ts:70-74 | the line entries kept are a part of the form |
| PedidoService.LinePartAppend | src/api/pedidoService.ts:70-74 | keeping line entries distributes over joined forms |
| PedidoService.LineKeyIsLineKey | src/api/pedidoService.ts:71-73 | every `detalles[i]…` key is a line key |
| PedidoService.DetailKeys | src/api/pedidoService.ts:70-74 | every entry of the lines has a line key |
| PedidoService.AllLineKeys | src/api/pedidoService.ts:70-74 | the line entries of the line part are all of it |
| PedidoService.NoLineKeys | src/api/pedidoService.ts:36-67 | a part without line keys contributes no line entries |
| PedidoService.HeaderKeysNotLineKeys | src/api/pedidoService.ts:36-67 | no header key looks like a line key |
| PedidoService.HeaderKeysDistinct | src/api/pedidoService.ts:36-67 | the header keys are pairwise different |
| PedidoService.HeaderNotLines | src/api/pedidoService.ts:36-67 | no header entry is a line entry |
| PedidoService.Kept | src/api/pedidoService.ts:39-64 | the form keeps an optional text exactly when it is truthy |
| PedidoService.MultipartMatchesJson | src/api/pedidoService.ts:32-108 | reading the multipart form back gives the JSON body with falsy optional fields left out: the two branches send the same order |
| PedidoService.FieldLookup | src/api/pedidoService.ts:36-67 | a key whose entries all carry one value reads back as that value |
| PedidoService.EmitLookup | src/api/pedidoService.ts:36-67 | a field with a unique key reads back as the value appended for it |
| PedidoService.FieldText | src/api/pedidoService.ts:36-67 | each header field reads back as its appended text, past any line entries |
| PedidoService.ClientLookups | src/api/pedidoService.ts:36-40 | the contact and client fields read back as appended |
| PedidoService.BillingLookups | src/api/pedidoService.ts:43-45 | the billing fields read back as appended |
| PedidoService.DeliveryLookups | src/api/pedidoService.ts:48-51 | the delivery fields read back as appended |
| PedidoService.PaymentLookups | src/api/pedidoService.ts:54-56 | the payment fields read back as appended |
| PedidoService.DepositLookups | src/api/pedidoService.ts:57-58 | the deposit fields read back as appended |
| PedidoService.ClosingLookups | src/api/pedidoService.ts:64-67 | the remarks and the channel read back as appended |
| PedidoService.HeaderLookups | src/api/pedidoService.ts:36-67 | all eighteen header fields read back as appended |
| OrderList.ByEstado | src/pages/OrderList.tsx:110 | exactly the orders in the state are kept |
| OrderList.Filtered | src/pages/OrderList.tsx:108-110 | 'Todos' keeps every order; any other choice keeps exactly the orders in that state |
| OrderList.ByEstadoAppend | src/pages/OrderList.tsx:110 | the filter keeps the orders' order |
| OrderList.FilteredIdempotent | src/pages/OrderList.tsx:108-110 | filtering the shown list again changes nothing |
| OrderList.CountsAddUp | src/pages/OrderList.tsx:182 | the seven state counts add up to the number of orders |
| OrderList.CountIsFilterLength | src/pages/OrderList.tsx:182 | each button's count is the length of the list that button shows |
| OrderList.ActionsDisjoint | src/pages/OrderList.tsx:320-328 | no order can be both cancelled and rated; orders being prepared, ready, on the way or cancelled offer neither |
| OrderList.OpenRating | src/pages/OrderList.tsx:62-67 | opening the dialog selects the order and resets the rating to 0 and the comment to '' |
| OrderList.ChooseStar | src/pages/OrderList.tsx:440 | a star sets the rating and nothing else |
| OrderList.TypeComment | src/pages/OrderList.tsx:462 | typing sets the comment and nothing else |
| OrderList.SubmitRating | src/pages/OrderList.tsx:70-90 | no request and a warning exactly when no order is selected or the rating is 0; otherwise the order's id, rating and comment are sent and the dialog closes on success |
| OrderList.OpenThenSubmitWarns | src/pages/OrderList.tsx:62-74 | sending straight after opening only warns |
| OrderList.OpenChooseSubmit | src/pages/OrderList.tsx:62-90 | open, a star and a comment send exactly that order, star and comment |
| OrderList.CancelRequest | src/pages/OrderList.tsx:93-106 | a cancellation is requested exactly when confirmed, for that order and the `cancelado` state |
| OrderList.CanCancel | src/pages/OrderList.tsx:328 | only a received or confirmed order offers the cancel button |
| OrderList.CanRate | src/pages/OrderList.tsx:320 | only a delivered order without a rating (none or 0) offers the rate button |
| OrderList.Badge | src/pages/OrderList.tsx:112-123 | an unknown state gets `badge-default` |
| OrderList.BadgeClass | src/pages/OrderList.tsx:122 | the class is `status-badge ` followed by the state's badge |
| OrderList.BadgesDistinct | src/pages/OrderList.tsx:112-123 | the seven states have seven different badges, none of them the default |
| OrderList.Label | src/pages/OrderList.tsx:125-136 | an unknown state is shown verbatim |
| OrderList.LabelsDistinct | src/pages/OrderList.tsx:125-136 | the seven labels differ and none is itself a state name |
| OrderList.EstadosButtons | src/pages/OrderList.tsx:26-35 | every state has a button, and every button after 'Todos' names a state |
| PlantList.StoredQuantity | src/pages/PlantList.tsx:43-49 | the stored quantity is at least 1: the number typed when it is at least 1, otherwise 1 |
| PlantList.StoredQuantityOf | src/pages/PlantList.tsx:43-49 | a positive quantity typed is stored as typed |
| PlantList.CartQuantity | src/pages/PlantList.tsx:52 | `quantities[id] \|\| 1`: the stored quantity, 1 when none or 0 |
| PlantList.InitialQuantities | src/pages/PlantList.tsx:29-34 | exactly the listed plants have a quantity, and it is 1 |
| PlantList.Page.constructor | src/pages/PlantList.tsx:10-14 | no plants and no quantities before loading |
| PlantList.Page.Load | src/pages/PlantList.tsx:22-41 | the plants are shown and the loop writes quantity 1 for every listed plant and no other |
| PlantList.Page.ChangeQuantity | src/pages/PlantList.tsx:43-49 | only the edited plant's quantity changes, to the clamped value |
| PlantList.Page.AddToCart | src/pages/PlantList.tsx:51-63 | the stored quantity (1 when none) goes into the cart, the alert names it, that plant's field is reset to 1 and the others stay |
| PlantList.AddedText | src/pages/PlantList.tsx:56 | the alert names the amount and the plant's common name |
| PlantList.CartQuantityAfterChange | src/pages/PlantList.tsx:43-52 | a plant whose field was set to a positive quantity is added with that quantity |
| PlantList.Search | src/pages/PlantList.tsx:65-74 | a plant is kept exactly when the lower-cased term occurs in its lower-cased common name, scientific name or category, missing ones read as '' |
| PlantList.Matches | src/pages/PlantList.tsx:65-74 | the lower-cased term occurs in the plant's lower-cased common name, scientific name or category name (its partners are `SearchEmpty` and `SearchIgnoresCase`) |
| PlantList.IncludesEmpty | src/pages/PlantList.tsx:71 | every text includes the empty term |
| PlantList.SearchEmpty | src/pages/PlantList.tsx:65-74 | an empty search box shows the whole catalogue |
| PlantList.ToLowerIdempotent | src/pages/PlantList.tsx:66 | lower-casing twice is lower-casing once |
| PlantList.SearchIgnoresCase | src/pages/PlantList.tsx:65-74 | a term and its lower-cased form find the same plants |
| PlantList.SearchAppend | src/pages/PlantList.tsx:65-74 | the search keeps the catalogue's order |
| PlantList.Shortened | src/pages/PlantList.tsx:169-171 | a description of at most 100 characters is shown whole; a longer one as its first 100 characters and '...' |
| PlantList.ShownDescription | src/pages/PlantList.tsx:167-173 | nothing is shown exactly when the description is missing or empty |
| Register.Validate | src/pages/Register.tsx:87-104 | mismatched passwords, then a password under 8 characters, then no municipality give their message; no message exactly when all three checks pass |
| Register.MunicipiosFor | src/pages/Register.tsx:66-75 | no department offers nothing; otherwise exactly the municipalities whose department equals the parsed selection |
| Register.InDepartamento | src/pages/Register.tsx:68-70 | the filter keeps exactly the municipalities of the department |
| Register.MunicipiosOfDepartamento | src/pages/Register.tsx:66-75 | choosing a department's option offers exactly its municipalities |
| Register.InDepartamentoAppend | src/pages/Register.tsx:68-70 | the filter keeps the list's order |
| Register.ChangeDepartamento | src/pages/Register.tsx:82-85 | the department changes and the municipality is cleared; nothing else in the form changes |
| Register.ChangeBlocksSubmit | src/pages/Register.tsx:82-104 | after a department change the form cannot be sent until a municipality is chosen again |
| Register.ErrorText | src/pages/Register.tsx:133-135 | `detail`, then the first `email` error, then the generic text, skipping empty ones |
| Register.Submit | src/pages/Register.tsx:106-140 | a failed check sends nothing and shows its message; otherwise the request carries the name, e-mail, phone, both passwords and address as typed and the parsed municipality, its passwords always agree and have at least 8 characters; success exactly when registered, the server's error otherwise |
| Register.SubmitSendsMunicipioId | src/pages/Register.tsx:122 | a municipality picked from the options is sent as its id |
| ForgotPassword.ResetError | src/pages/ForgotPassword.tsx:132-135 | the server's `error` when non-empty, the generic text otherwise |
| ForgotPassword.Page.constructor | src/pages/ForgotPassword.tsx:9-19 | the page starts at the e-mail step with empty fields and no success |
| ForgotPassword.Page.TypeEmail | src/pages/ForgotPassword.tsx:9-19 | typing the e-mail changes only the e-mail |
| ForgotPassword.Page.TypeCode | src/pages/ForgotPassword.tsx:9-19 | typing the code changes only the code |
| ForgotPassword.Page.TypePasswords | src/pages/ForgotPassword.tsx:9-19 | typing the passwords changes only the passwords |
| ForgotPassword.Page.SendCode | src/pages/ForgotPassword.tsx:28-70 | no user shows the no-account error and keeps the step; a user gets a fresh code mailed; the step moves to 'code' only when the mail goes out; the step never goes back |
| ForgotPassword.Page.VerifyCode | src/pages/ForgotPassword.tsx:72-81 | the step moves to 'newPassword' exactly when the typed code equals the generated one; otherwise it stays with an error |
| ForgotPassword.Page.ResetPassword | src/pages/ForgotPassword.tsx:84-139 | mismatch, then a short password, are refused without a request; otherwise the reset is requested and succeeds on a reply whatever happens to the confirmation mail |
| ForgotPassword.HappyPath | src/pages/ForgotPassword.tsx:28-139 | found user, sent mail, right code and matching long passwords end in success with the reset of the e-mail typed first |
| ForgotPassword.WrongCode | src/pages/ForgotPassword.tsx:72-81 | a wrong code never gets past the code step |
| ProtectedRoute.HasRequiredRole | src/components/ProtectedRoute.tsx:32-34 | some required role is one of the user's roles; never without a user |
| ProtectedRoute.Decide | src/components/ProtectedRoute.tsx:13-46 | loading first, then the login redirect, then children when no roles are required, otherwise children exactly when a required role is held and denial exactly when not |
| ProtectedRoute.ChildrenExactly | src/components/ProtectedRoute.tsx:10-47 | the page is shown exactly when loaded, authenticated and either no role is required or one is held |
| ProtectedRoute.MoreRolesNoLess | src/components/ProtectedRoute.tsx:31-43 | a user with more roles is never denied what a user with fewer may see |
| ProtectedRoute.MoreRequiredNoLess | src/components/ProtectedRoute.tsx:31-43 | adding alternatives to the required roles never shuts a user out |
| AuthContext.AuthProvider.constructor | src/context/AuthContext.tsx:10-12 | no session yet and loading |
| AuthContext.AuthProvider.IsAuthenticated | src/context/AuthContext.tsx:82 | `!!token && !!user`: a non-empty token and a user are both held |
| AuthContext.AuthProvider.InitAuth | src/context/AuthContext.tsx:15-28 | the session is restored exactly when both the access token and the user are stored; loading ends either way; storage is untouched |
| AuthContext.AuthProvider.Login | src/context/AuthContext.tsx:30-45 | success stores both tokens and the user and sets the session; failure rethrows with storage and session unchanged |
| AuthContext.AuthProvider.Logout | src/context/AuthContext.tsx:57-63 | exactly the three keys are removed and the session cleared |
| AuthContext.AuthProvider.RefreshToken | src/context/AuthContext.tsx:65-77 | without a stored refresh token or on failure: logout and throw; success sends the stored refresh token and replaces only the access token and the session's token |
| AuthContext.LoginThenReload | src/context/AuthContext.tsx:15-45 | after a login a reloaded provider restores the same session and is authenticated |
| AuthContext.LogoutThenReload | src/context/AuthContext.tsx:15-63 | after a logout a reloaded provider finds no session |

## Left out

- Server-side route logic is not modelled. The client only posts to the route endpoints in src/api/logisticaService.ts:159-181, so its start, finish and delete transitions, capacity checks, delivery sequencing and order uniqueness are not in this code.
- Network calls are outcome parameters: axios, `fetch`, the sign-up and login services, and the e-mails sent through emailjs. Loading flags, `console` output, `alert` and `confirm` texts are left out, except where an operation returns its alert text.
- Randomness and time are left out. The six-digit reset code is a parameter restricted to the values `generateCode` can yield. Dates and their formatting, `setTimeout` redirects and the dashboard's `setInterval` are not modelled.
- Floating point is left out: `parseFloat`, `toFixed`, the cart's `getTotalPrice` and the route form's `totalMonto`. Decimal measures and prices stay texts.
- DetalleRuta.Progress: stated over exact reals, so the rounding of JavaScript's floating-point division is not modelled.
- LogisticaDashboard.Progress: the same exact division, with `Infinity` and `NaN` kept as cases of their own.
- Storage JSON is not modelled. The cart's `localStorage` copy is the constructor's argument. The stored user is kept as a record, so `JSON.stringify` and `JSON.parse` are treated as inverse.
- Url.ParseSerialize: percent-encoding is not modelled, so the round trip is stated only for texts without '&', '=' and '?'.
- Text.Trim: only the six ASCII white-space characters are cut; JavaScript's `trim` also cuts non-ASCII white space (U+00A0, U+FEFF, U+2028, U+2029 and the Zs category), which is not modelled.
- Text.TrimEnd: the same ASCII-only white space as Text.Trim.
- Text.SkipSpaces: the same ASCII-only white space as Text.Trim, for `parseInt`'s leading skip.
- Text.ParseInt: the hexadecimal `0x` prefix and non-ASCII white space are not modelled. Its partner is Text.ParseIntToString.
- Text.ToLower: only ASCII letters change case. The same holds for Text.ToUpper.
- Lengths count characters, not UTF-16 code units. This affects the minimum password length of 8 and the description cut at 100.
- Object-prototype keys such as `constructor` are not modelled in the badge and label tables.
- React rendering, re-render batching and effect scheduling are not modelled, nor `Promise.all` loading and other concurrency. Each handler runs to completion against the state it read.
- These files are not part of this model: src/api/axiosConfig.ts (token-refresh interceptor), src/pages/Dashboard.tsx, src/pages/Home.tsx, src/pages/Login.tsx, src/components/Navbar.tsx, src/App.tsx and the one-line services in catalogoService, ubicacionService, authService and dashboardService.
- AuthContext's `register` only forwards to the sign-up call and is left out; Register.Submit takes that call's outcome.
- ListaRutas' badge and label tables and its guarded progress are the same expressions as DetalleRuta's. The model uses DetalleRuta.BadgeClass, DetalleRuta.Label and DetalleRuta.Progress for them rather than copies.
- CreateOrder.BuildRequest: the municipality select's value is a string at run time although typed as a number; the model keeps it as the text selected.
- ForgotPassword.Page.SendCode: when the code mail fails, the new code still replaces the old one (src/pages/ForgotPassword.tsx:48), so a code mailed earlier stops working. The contract states this as the code does.
- ForgotPassword.Page.ResetPassword: the success screen is only shown, and the redirect to /login after two seconds is not modelled.

## Findings

| source | as written | input that shows it | evidently intended | confidence | as-written member | corrected member |
|---|---|---|---|---|---|---|
| src/context/CartContext.tsx:41-42 | the `addItem` updater copies the array but adds to the existing entry object in place, so the copy and the previous state share that entry | under `React.StrictMode` (src/main.tsx:11) the updater runs twice on the same previous state; adding 1 of a plant already held at 2 leaves 4 | adding raises the plant's quantity by exactly the amount (2 becomes 3) | not executed; affects development builds, where StrictMode calls updaters twice | CartContext.StrictModeAddTwice | CartItems.AddItem |

In the as-written member, the updater is run twice on the same array of shared entry objects, and its ensures states that the plant gains twice the amount. The corrected `CartItems.AddItem` builds a new entry instead. CartItems.AddItemTotal proves that it raises the total by exactly the amount, and CartContext.PureAddOnce proves that the entry gains the amount once. `CartContext.CartProvider.Add` and the rest of the model use the corrected definition.
