# Christmas gift delivery, modelled in Dafny

This project models the gift-delivery domain of `src/main/kotlin/navidad.kt`.
A process holds a stock of gifts (`Regalo`). For a person (`Persona`) it picks
the first stocked gift the person's preference strategy (`CriterioRegalo`)
likes, or else a `Voucher(2000, "Papapp")`. It logs the delivery, takes the
gift out of stock, and then tells each registered observer, in registration
order. There are three observers. One sends a mail, one sends a shipping
report, and one replaces the receiver's strategy with `Interesado(5000)` when
the gift costs more than 10000.

Modules follow the components of the source file:

- `regalos.dfy` (`Regalos`): each gift is a class `Regalo`, so stock removal
  is by object identity, as in the source. Cost, brand and the variant data
  (`TipoDeRegalo`: `Ropa`, `Jueguete(year)`, `Perfume(origin)`,
  `Experiencia(ISO weekday)`, `Voucher`) are constants. The identifier `id` is
  a mutable field. The template-method rule `EsRegaloValioso` is here.
- `criterios.dfy` (`Criterios`): the strategies as a closed, recursive
  datatype. `Gusta` decides whether a strategy likes a gift.
- `personas.dfy` (`Personas`): the person, whose strategy field can be
  reassigned.
- `salidas.dfy` (`Salidas`): the `Mail` and `Informe` records, and the two
  outbound collaborators. Each collaborator is modelled as a ghost trace of
  the messages handed to it.
- `observadores.dfy` (`Observadores`): the observers as a closed datatype,
  one notification, and the notification loop. Spec functions give the
  combined effect of a list of observers: the final strategy
  (`CriterioTras`) and the messages each collaborator receives
  (`MailsEnviadosA`, `InformesEnviadosA`). A ghost log (`BitacoraDeAvisos`)
  records every notification call, so the order of calls is stated across
  all observers (`AvisosEnOrden`).
- `proceso.dfy` (`Procesos`): the process as a class with three `seq`
  fields, and first-occurrence removal (`QuitarPrimero`). The Kotlin
  singleton `object` becomes one explicitly constructed instance.
- `escenarios.dfy` (`Escenarios`): client methods that derive the outcome of
  concrete deliveries from the contracts alone.

Two behaviours of the code worth knowing:

- A gift object stocked twice is still in stock after one delivery. Kotlin's
  `remove` takes out only the first occurrence (`QuitarPrimeroDejaLasDemasApariciones`).
- Nothing in the code assigns a gift's identifier when it is stocked. A gift
  keeps `id == 0` unless the client sets it.

## Model

| member | source | states |
|---|---|---|
| `Regalos.Regalo.constructor` | src/main/kotlin/navidad.kt:59-67 | a new gift has the given cost, brand and variant data, and id 0 |
| `Regalos.Regalo.EsRegaloValioso` | src/main/kotlin/navidad.kt:66-77 | a valuable gift costs more than 5000, and a voucher is never valuable whatever its cost or brand |
| `Regalos.ReglaDeRegaloValioso` | src/main/kotlin/navidad.kt:72-123 | per variant, valuable iff cost > 5000 and: brand is one of Jordache, Lee, Charro, Motor Oil (clothing); release year < 2000 (toy); origin foreign (perfume); weekday 5 (experience); never (voucher) |
| `Regalos.Regalo.CondicionDePrecioDeRegaloValioso` | src/main/kotlin/navidad.kt:77 | defines the price half of the valuable rule: cost strictly above 5000 |
| `Regalos.Regalo.CaracteristicaEspecificaDelRegalo` | src/main/kotlin/navidad.kt:83-121 | defines each variant's own feature; its consequences are stated by `Regalos.ReglaDeRegaloValioso` |
| `Criterios.Gusta` | src/main/kotlin/navidad.kt:17-51 | defines whether a strategy likes a gift; its properties are the `Criterios` lemmas below |
| `Criterios.AlgunoGusta` | src/main/kotlin/navidad.kt:51 | defines the composite's `any` over its children, tried left to right |
| `Criterios.GustosDeLosCriteriosSimples` | src/main/kotlin/navidad.kt:24-42 | Conformista likes every gift; Interesado(t) iff cost > t (strict); Exigente iff the gift is valuable; Marquera(b) iff brand equals b |
| `Criterios.MarqueraIgnoraElCosto` | src/main/kotlin/navidad.kt:38-42 | two gifts with the same brand are judged alike by a Marquera, whatever they cost |
| `Criterios.ExigenteEsMasEstrictoQueInteresado` | src/main/kotlin/navidad.kt:29-36 | what an Exigente likes, Interesado(5000) also likes; an Exigente never likes a voucher |
| `Criterios.AlgunoGustaSiAlgunHijoGusta` | src/main/kotlin/navidad.kt:51 | the left-to-right `any` over child strategies holds iff some child likes the gift |
| `Criterios.CombinetaGustaSiAlgunHijoGusta` | src/main/kotlin/navidad.kt:44-52 | a Combineta likes a gift iff one of its children does; with no children it likes nothing |
| `Personas.Persona.constructor` | src/main/kotlin/navidad.kt:2-10 | a new person holds the given strategy and blank contact fields |
| `Personas.Persona.LeGustaRegalo` | src/main/kotlin/navidad.kt:13 | defines liking as delegation to the strategy currently held |
| `Salidas.MailSender.SendMail` | src/main/kotlin/navidad.kt:248-250 | sending appends exactly that mail to the sender's trace |
| `Salidas.Flete.InformarElRegalo` | src/main/kotlin/navidad.kt:254-257 | reporting appends exactly that report to the service's trace |
| `Observadores.MailDeRegaloEnviado` | src/main/kotlin/navidad.kt:205-211 | the mail goes to the person's email, from jojojo@mail.com, with subject "Regalo de navidad enviado", and its content ends with the person's name |
| `Observadores.InformeDeEntrega` | src/main/kotlin/navidad.kt:222-227 | the report carries the person's address, name and national id, and the gift's id |
| `Observadores.RegaloEntregado` | src/main/kotlin/navidad.kt:204-241 | one observer told of a delivery: the call is appended to the notification log; the mail observer appends `MailDeRegaloEnviado` to its own sender; the shipping observer appends `InformeDeEntrega` to its own service; the escalator sets the strategy to Interesado(new amount) iff cost > its maximum, else leaves it; no contact field changes |
| `Observadores.AvisosEnOrden` | src/main/kotlin/navidad.kt:169 | one log entry per observer of the list, the i-th naming the i-th observer, the person and the gift |
| `Observadores.Dispara` | src/main/kotlin/navidad.kt:238 | defines when an observer replaces the strategy: it is an escalator and the gift costs strictly more than its maximum |
| `Observadores.CriterioTras` | src/main/kotlin/navidad.kt:169 | defines the strategy left after each observer of a list has run, first to last; its characterisation is `CriterioTrasSinDisparo` / `CriterioTrasUltimoDisparo` |
| `Observadores.MailsEnviadosA` | src/main/kotlin/navidad.kt:169 | defines the mails a list of observers hands to one sender, in list order |
| `Observadores.InformesEnviadosA` | src/main/kotlin/navidad.kt:169 | defines the reports a list of observers hands to one shipping service, in list order |
| `Observadores.NotificarAlSiguiente` | src/main/kotlin/navidad.kt:169 | the i-th observer's notification, restated for every collaborator reachable from the observer list |
| `Observadores.NotificarObservers` | src/main/kotlin/navidad.kt:169 | notifying the list first to last appends `AvisosEnOrden` to the notification log (every observer called once, in list order), leaves the strategy at `CriterioTras`, and gives each collaborator exactly the messages its observers send, in list order |
| `Observadores.MailsEnviadosAlNotificarUnoMas` | src/main/kotlin/navidad.kt:169 | extending the observer prefix by one adds exactly that observer's mail to `MailsEnviadosA` for its own sender only |
| `Observadores.InformesEnviadosAlNotificarUnoMas` | src/main/kotlin/navidad.kt:169 | extending the observer prefix by one adds exactly that observer's report to `InformesEnviadosA` for its own service only |
| `Observadores.CriterioTrasSinDisparo` | src/main/kotlin/navidad.kt:237-241 | if no escalator's threshold is exceeded, the person keeps their strategy |
| `Observadores.CriterioTrasUltimoDisparo` | src/main/kotlin/navidad.kt:237-241 | otherwise the last escalator to fire decides the new strategy, whatever the strategy was before |
| `Observadores.EscaladoPorDefecto` | src/main/kotlin/navidad.kt:232-241 | with default escalators (10000 to 5000), a gift costing more than 10000 leaves Interesado(5000) whatever the prior strategy; a gift of at most 10000 leaves the strategy unchanged |
| `Observadores.MailsEnviadosSonUnoPorObserver` | src/main/kotlin/navidad.kt:204-212 | a sender receives exactly one copy of the delivery mail per mail observer injected with it: each observer is called once |
| `Observadores.InformesEnviadosSonUnoPorObserver` | src/main/kotlin/navidad.kt:221-228 | a shipping service receives exactly one copy of the report per shipping observer injected with it |
| `Procesos.QuitarPrimero` | src/main/kotlin/navidad.kt:188 | removal is a no-op when the gift is absent; otherwise the list is one shorter and exactly one occurrence has gone (multiset difference) |
| `Procesos.QuitarPrimeroQuitaLaPrimeraAparicion` | src/main/kotlin/navidad.kt:188 | removal takes out the first occurrence and keeps the order of the rest |
| `Procesos.QuitarPrimeroDejaLasDemasApariciones` | src/main/kotlin/navidad.kt:188 | a gift stocked twice is still in stock after one removal |
| `Procesos.HayRegaloGustado` | src/main/kotlin/navidad.kt:144 | defines that some stocked gift is liked under a strategy |
| `Procesos.PrimerIndiceGustado` | src/main/kotlin/navidad.kt:148 | when some stocked gift is liked, the lowest index of a liked one |
| `Procesos.PrimerGustadoEsUnico` | src/main/kotlin/navidad.kt:148 | a liked gift with no liked gift before it is at that lowest index |
| `Procesos.StockTrasLaEntrega` | src/main/kotlin/navidad.kt:186-189 | removing the selected gift takes it out at its own index; removing the fallback voucher leaves the stock as it was |
| `Procesos.Proceso.constructor` | src/main/kotlin/navidad.kt:137-140 | a new process has empty stock, observers and log, and a fresh empty notification log |
| `Procesos.Proceso.ExisteRegaloAdecuadoParaLaPersona` | src/main/kotlin/navidad.kt:144 | true iff `HayRegaloGustado` holds for the stock and the person's strategy |
| `Procesos.Proceso.RegaloAdecuadoParaLaPersona` | src/main/kotlin/navidad.kt:148 | when some stocked gift is liked (required, as `first` throws otherwise), returns the stocked gift at `PrimerIndiceGustado`, the lowest index of a liked one |
| `Procesos.Proceso.RegaloAdecuadoParaLaPersonaOVaucher` | src/main/kotlin/navidad.kt:152-159 | the first liked stocked gift if there is one; otherwise a new Voucher(2000, "Papapp") with id 0 that is not in stock |
| `Procesos.Proceso.AgregarRegaloEnStock` | src/main/kotlin/navidad.kt:173-175 | appends the gift to the stock; nothing else changes |
| `Procesos.Proceso.AgregarObserver` | src/main/kotlin/navidad.kt:178-180 | appends the observer; nothing else changes |
| `Procesos.Proceso.EntregaDeRegalo` | src/main/kotlin/navidad.kt:186-189 | appends exactly one record (person, gift) to the log, removes the first occurrence of that gift object from stock, and leaves the observers as they were |
| `Procesos.Proceso.RealizarRegalo` | src/main/kotlin/navidad.kt:163-170 | one record for the selected gift (first liked, else a new voucher). The selected gift leaves stock at its index; a new voucher (id 0) leaves stock untouched. Observers are unchanged. The notification log gains one entry per observer in registration order, naming the selected gift; the strategy and each collaborator's trace are what notifying every observer once, in that order, produces |

## Left out

- Dates: `LocalDate.now()` is not modelled. A toy's release year and an experience's ISO weekday (a `DiaDeLaSemana`, 1 to 7) are integers given at construction.
- Regalo attributes: in Kotlin the cost, brand, release date, origin and experience date are mutable properties. The core never reassigns them, so they are constants given at construction. The perfume's origin is passed explicitly instead of defaulting to national and being set afterwards.
- Strategies and observers are shared, mutable objects in Kotlin: `Interesado`'s amount, `Combineta`'s child list, `Marquera.marcaRecibida`, `MailObserver.mailSender` and the escalator's two amounts are `var`s. Here they are values, so a change to a strategy or observer object already held by someone is not modelled. Because the child list is mutable, a Kotlin `Combineta` can contain itself, and `gustosDeRegalo` then recurses without end; the inductive `Criterio` rules such cycles out.
- Open subclassing of gifts, strategies and observers is replaced by the closed variants the file defines.
- MailSender and Flete implementations are external. Each is modelled only as the trace of messages handed to it.
- Floating point: costs are exact `real` numbers. The code only compares them against constants.
- Exceptions: `first` failing with no liked gift is a precondition of `RegaloAdecuadoParaLaPersona` instead. A collaborator that throws, and so stops the remaining observers, is not modelled.
- The `lateinit` strategy field: a person always holds a strategy, given at construction.
- Procesos.Proceso.RealizarRegalo: returns the selected gift as a ghost result so its contract can name it; Kotlin's `realizarRegalo` returns nothing.
- Procesos.Proceso.RealizarRegalo: does not itself state that the log and stock are updated before any observer runs. The body does this in that order, but no observer in this closed set reads the process, so the order cannot be observed from the contract.
