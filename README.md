# Cooperativa Digital savings ledger, in Dafny

This project models the in-memory core of a small Java banking application:

- **Accounts (`Cuenta`, `CuentaAhorros`).** An account holds a balance and an append-only history of transactions. It validates every deposit, withdrawal and transfer before changing anything. A savings account adds 2% interest on a positive balance.
- **Clients (`Cliente`).** A client holds an ordered set of accounts, unique by account number.
- **Client registry (`GestorClientes`).** An ordered store of clients, unique by document.
- **Reports (`ReporteServicio`).** Report aggregations over a snapshot of the client list. The most involved is the top-20% "premium" segment.

Modules, one per source class, plus shared pieces:

| module | file | models |
|---|---|---|
| `Comun` | comun.dfy | `Option`, `Result`, `Outcome`. An `Error` case for each kind of `IllegalArgumentException`; messages that say the same thing in different words share a case. |
| `Texto` | texto.dfy | Java's `String.trim`, `toUpperCase` and "null or blank" checks. |
| `Validador` | validador.dfy | `ValidadorTransaccion` |
| `Transacciones` | transaccion.dfy | `Transaccion`, an immutable value |
| `Secuencias` | secuencias.dfy | The stream operations the classes use: `filter`/`removeIf`, `findFirst`, `sum`, count, descending sort. |
| `Cuentas` | cuenta.dfy | `Cuenta` and `CuentaAhorros`, as one class whose interest policy is a function-valued field |
| `Clientes` | cliente.dfy | `Cliente`, as a class whose account list is a `seq` field |
| `Gestor` | gestor.dfy | `GestorClientes`, as a plain object |
| `Reportes` | reportes.dfy | `ReporteServicio` |

How the Java maps to Dafny:

- Amounts are `real`.
- The timestamp `LocalDateTime.now()` becomes a `Fecha` parameter.
- A `null` argument becomes `None` or a `null` reference.
- A thrown exception becomes a `Failure`/`Fail` carrying an `Error`.
- The methods that mutate (`depositar`, `retirar`, `transferir`, `aplicarInteres`, `agregarCuenta`, `eliminarCuenta`, `registrarCliente`, `eliminarCliente`) are Dafny methods with `modifies` clauses. Each one keeps its class's `Valid()` invariant:
  - an account: a non-negative balance, well-formed entries, and a balance no lower than the deposits minus the withdrawals in its history;
  - a client: account numbers pairwise distinct;
  - the registry: documents pairwise distinct.
- The stream expressions are functions.

## Model

| member | source | states |
|---|---|---|
| Validador.ValidarMontoPositivo | src/servicio/ValidadorTransaccion.java:11-15 | fails, with the positive-amount error, exactly when the amount is `<= 0` |
| Validador.ValidarRetiro | src/servicio/ValidadorTransaccion.java:20-29 | passes exactly when `0 < monto <= saldo`, so withdrawing the whole balance passes; a non-positive amount fails as such first; an overdraft fails with insufficient funds carrying both the available balance and the requested amount |
| Validador.ValidarDeposito | src/servicio/ValidadorTransaccion.java:32-34 | passes exactly on positive amounts, failing with the positive-amount error |
| Validador.DepositoEsMontoPositivo | src/servicio/ValidadorTransaccion.java:32-34 | the deposit rule gives the same outcome as the positive-amount rule on every amount |
| Validador.ValidarTransferencia | src/servicio/ValidadorTransaccion.java:37-39 | passes exactly when `0 < monto <= saldo`, with the same two failures as a withdrawal |
| Validador.TransferenciaEsRetiro | src/servicio/ValidadorTransaccion.java:37-39 | the transfer rule gives the same outcome as the withdrawal rule on every balance and amount |
| Texto.Recortar | src/modelo/Transaccion.java:18 | `trim`: a contiguous slice of the input with only characters `<= ' '` cut from either end; empty exactly when every character is `<= ' '`; otherwise starts and ends with a non-space |
| Texto.RecortarIdempotente | src/modelo/Cuenta.java:19 | trimming a trimmed string changes nothing, so stored numbers, names and documents are already trimmed |
| Texto.Mayusculas | src/modelo/Transaccion.java:18 | `toUpperCase`: same length, character by character |
| Texto.MayusculasIdempotente | src/modelo/Transaccion.java:35 | upper-casing yields an upper-case string and is idempotent |
| Texto.NormalizarIdempotente | src/modelo/Transaccion.java:18 | trim-then-upper-case is idempotent and keeps a string blank exactly when it was blank |
| Transacciones.NuevaTransaccion | src/modelo/Transaccion.java:16-21 | succeeds exactly when the type is present and not blank and the amount is positive; a missing or blank type fails first, then a non-positive amount; the stored type is the trimmed, upper-cased input, the amount and timestamp are the arguments unchanged, and the result is well formed |
| Transacciones.Transaccion.Equals | src/modelo/Transaccion.java:44-51 | two transactions are equal exactly when type, amount and timestamp all match |
| Transacciones.Transaccion.EsTipo | src/modelo/Transaccion.java:34-36 | `esTipo(q)`: a match needs (under the modelled upper-casing) a query as long as the stored type, and an upper-case stored type |
| Transacciones.EsTipoDeNueva | src/modelo/Transaccion.java:16-36 | a transaction built from any accepted type `t` answers `esTipo(q)` exactly when `q` upper-cased equals `t` trimmed and upper-cased |
| Transacciones.EsTipoSinBordes | src/modelo/Transaccion.java:34-36 | the query is not trimmed: a matching query is non-empty and has no blank first or last character |
| Transacciones.EsTipoIgnoraMayusculas | src/modelo/Transaccion.java:34-36 | `esTipo(q)` holds exactly when `esTipo` of `q` upper-cased holds |
| Transacciones.DepositoFijo | src/modelo/Cuenta.java:32 | the DEPÓSITO type is its own normalisation and not blank, so the entry is stored as written |
| Transacciones.RetiroFijo | src/modelo/Cuenta.java:39 | the RETIRO type is its own normalisation and not blank |
| Transacciones.TransferenciaEnviadaFija | src/modelo/Cuenta.java:49 | the TRANSFERENCIA_ENVIADA type is its own normalisation and not blank |
| Secuencias.Filtrar | src/modelo/Cuenta.java:58-62 | `stream().filter(p)`: the `j`-th result is the input at the `j`-th position satisfying `p`, so each kept element appears once per occurrence and in input order; the whole input exactly when all satisfy `p` |
| Secuencias.Seleccionar | src/servicio/ReporteServicio.java:29-33 | the filter that tests each element through a key: the kept elements are the inputs at the positions where the key passes, in increasing position order |
| Secuencias.SeleccionarConservaOrden | src/servicio/ReporteServicio.java:90-92 | two kept elements appear in the result in the order of their positions in the input |
| Secuencias.FiltrarConservaClavesUnicas | src/modelo/Cliente.java:38-41 | removing elements keeps keys pairwise distinct |
| Secuencias.Primero | src/modelo/Cliente.java:44-49 | `findFirst`: none exactly when no element satisfies `p`, otherwise the element at the first position that does |
| Secuencias.SumaNoNegativa | src/modelo/Cliente.java:57-61 | a sum of non-negative balances is non-negative |
| Secuencias.SumaConcat | src/servicio/ReporteServicio.java:43-48 | a sum over a concatenation is the sum of the two sums |
| Secuencias.IndicesCuenta | src/servicio/ReporteServicio.java:90-92 | a filter keeps as many elements as satisfy its predicate |
| Secuencias.ContarPermutacion | src/servicio/ReporteServicio.java:81-84 | sorting (any permutation) does not change how many balances satisfy a predicate |
| Secuencias.ContarPrefijo | src/servicio/ReporteServicio.java:87-88 | when the first `k` sorted balances satisfy a predicate, at least `k` balances do |
| Secuencias.ContarAcotado | src/servicio/ReporteServicio.java:87-88 | when every sorted balance from position `k` on fails a predicate, at most `k` balances satisfy it |
| Secuencias.OrdenarDesc | src/servicio/ReporteServicio.java:81-84 | `sorted(Collections.reverseOrder())`: descending, a permutation of the input, same length |
| Cuentas.InteresAhorros | src/modelo/CuentaAhorros.java:5-6 | under the savings policy a positive balance becomes 102% of itself and any other balance is unchanged |
| Cuentas.Cuenta.Crear | src/modelo/Cuenta.java:15-23 | rejects a missing or blank number, then a missing policy; otherwise a fresh valid account with the trimmed number, the policy, balance 0 and no history |
| Cuentas.Cuenta.CrearAhorros | src/modelo/CuentaAhorros.java:9-11 | a savings account: the 2% policy bound, same error cases and initial state as an account |
| Cuentas.Cuenta.RegistrarTransaccion | src/modelo/Cuenta.java:79-81 | appends exactly one entry of the given type, amount and timestamp |
| Cuentas.Cuenta.Depositar | src/modelo/Cuenta.java:29-33 | outcome is the deposit rule's; on success the balance grows by the amount and one DEPÓSITO entry is appended; on failure nothing changes; the account invariant is kept |
| Cuentas.Cuenta.Retirar | src/modelo/Cuenta.java:36-40 | outcome is the withdrawal rule's; on success the balance shrinks by the amount and one RETIRO entry is appended; on failure nothing changes; the balance never goes negative |
| Cuentas.Cuenta.Transferir | src/modelo/Cuenta.java:43-50 | passes exactly when the amount is valid, the destination present and different by number; errors in the source's order; on success the source loses the amount and logs RETIRO then TRANSFERENCIA_ENVIADA, the destination gains it and logs one DEPÓSITO, the combined balance is preserved; on failure neither account changes |
| Cuentas.Cuenta.EjecutarTransferencia | src/modelo/Cuenta.java:47-49 | the three steps of a validated transfer keep both accounts' invariants and move exactly the amount |
| Cuentas.Cuenta.RegistrarTransferenciaEnviada | src/modelo/Cuenta.java:49 | the closing TRANSFERENCIA_ENVIADA entry is appended alone and keeps the account invariant |
| Cuentas.Cuenta.AplicarInteres | src/modelo/CuentaAhorros.java:15-20 | the balance becomes the balance plus the policy's interest when that is positive, and stays as it was otherwise; it never decreases, and the history is untouched |
| Cuentas.Cuenta.CalcularInteresProyectado | src/modelo/CuentaAhorros.java:28-30 | the policy applied to the balance: `saldo * 0.02` for a savings account, non-negative on a non-negative balance |
| Cuentas.Cuenta.GetTasaInteres | src/modelo/CuentaAhorros.java:23-25 | the rate is `0.02`, and it is the rate the savings policy charges on every balance |
| Cuentas.Cuenta.ObtenerHistorial | src/modelo/Cuenta.java:53-55 | every entry is well formed with a positive amount, and the entries account for no more than the balance |
| Cuentas.Cuenta.ObtenerTransaccionesPorTipo | src/modelo/Cuenta.java:58-62 | the `j`-th result is the `j`-th history entry whose type equals the query exactly: every such entry, once each, in history order |
| Cuentas.Cuenta.GetCantidadTransacciones | src/modelo/Cuenta.java:73-75 | the length of the history |
| Cuentas.Cuenta.Equals | src/modelo/Cuenta.java:106-111 | accounts are equal exactly when their numbers are |
| Cuentas.SaldosDe | src/modelo/Cliente.java:57-60 | `mapToDouble(Cuenta::getSaldo)`: the balances, one per account, in order |
| Cuentas.LibroAlFinal | src/modelo/Cuenta.java:79-81 | appending an entry moves the history's ledger by that entry's effect |
| Clientes.Cliente.constructor | src/modelo/Cliente.java:19-26 | a valid client with trimmed name and document and no accounts |
| Clientes.Cliente.Crear | src/modelo/Cliente.java:82-93 | rejects a missing or blank name, then a missing or blank document; otherwise a fresh client with both trimmed and no accounts |
| Clientes.Cliente.BuscarCuenta | src/modelo/Cliente.java:44-49 | rejects a missing or blank number; otherwise the first account with exactly that number, none exactly when no account has it |
| Clientes.Cliente.TieneCuenta | src/modelo/Cliente.java:52-54 | fails as the search does; otherwise true exactly when the search finds an account, that is, when some account has the number |
| Clientes.Cliente.AgregarCuenta | src/modelo/Cliente.java:29-35 | rejects a missing account; a number already held leaves the accounts unchanged; otherwise the account is appended and the total balance grows by its balance; numbers stay pairwise distinct |
| Clientes.Cliente.EliminarCuenta | src/modelo/Cliente.java:38-41 | rejects a missing or blank number and changes nothing; otherwise the accounts become the in-order filter of those with another number, the result is true exactly when one had it, and afterwards the client has no such account |
| Clientes.QuitarPorNumero | src/modelo/Cliente.java:40 | removing the accounts with a number keeps numbers distinct, leaves none with that number, and shortens the list exactly when one had it |
| Clientes.Cliente.CalcularSaldoTotal | src/modelo/Cliente.java:57-61 | 0 with no accounts, never negative while every balance is non-negative |
| Clientes.Cliente.GetCuentas | src/modelo/Cliente.java:72-74 | the accounts, numbers pairwise distinct |
| Clientes.Cliente.GetCantidadCuentas | src/modelo/Cliente.java:76-78 | the number of accounts `getCuentas` returns |
| Clientes.Cliente.Equals | src/modelo/Cliente.java:109-114 | clients are equal exactly when their documents are |
| Gestor.GestorClientes.constructor | src/servicio/GestorClientes.java:13-15 | an empty store |
| Gestor.GestorClientes.BuscarCliente | src/servicio/GestorClientes.java:33-38 | rejects a missing or blank document; otherwise the first client with exactly that document, none exactly when no client has it |
| Gestor.GestorClientes.ExisteCliente | src/servicio/GestorClientes.java:41-44 | fails as the search does; otherwise true exactly when the search finds a client |
| Gestor.GestorClientes.RegistrarCliente | src/servicio/GestorClientes.java:26-30 | rejects a missing client, then a blank document, then a document already present; succeeds exactly otherwise, appending the client, growing the count by 1, and the search then finds it; a failure leaves the store unchanged; documents stay pairwise distinct |
| Gestor.PrimeroAlFinal | src/servicio/GestorClientes.java:29 | a client appended to a store without its document is the first match for its document |
| Gestor.GestorClientes.EliminarCliente | src/servicio/GestorClientes.java:47-50 | rejects a missing or blank document; otherwise the store becomes the in-order filter of clients with another document, the result is true exactly when one had it, and afterwards no client has it |
| Gestor.QuitarPorDocumento | src/servicio/GestorClientes.java:49 | removing the clients with a document keeps documents distinct, leaves none with that document, and shortens the store exactly when one had it |
| Gestor.GestorClientes.ObtenerClientes | src/servicio/GestorClientes.java:53-55 | the store, documents pairwise distinct |
| Gestor.GestorClientes.ContarClientes | src/servicio/GestorClientes.java:58-60 | the number of clients `obtenerClientes` returns |
| Reportes.ReporteServicio.Crear | src/servicio/ReporteServicio.java:14-19 | rejects a missing list; otherwise a fresh service holding its own copy of the list |
| Reportes.SaldoTotalCliente | src/servicio/ReporteServicio.java:22-26 | the report's per-client sum equals the client's own total balance |
| Reportes.SaldosClientes | src/servicio/ReporteServicio.java:68-70 | one entry per client, each that client's total balance |
| Reportes.CantidadesCuentas | src/servicio/ReporteServicio.java:51-62 | one entry per client, each that client's number of accounts |
| Reportes.TodasLasCuentas | src/servicio/ReporteServicio.java:45 | `flatMap` over the clients' accounts yields only accounts some listed client holds, every account of every listed client, and as many entries as the clients' account counts add up to |
| Reportes.CapitalPorClientes | src/servicio/ReporteServicio.java:43-48 | summing every account of every client equals summing the clients' totals |
| Reportes.ReporteServicio.ObtenerClientesSaldoSuperior | src/servicio/ReporteServicio.java:29-33 | the `j`-th result is the `j`-th listed client whose total is strictly above the threshold: all of them, once each, in list order |
| Reportes.ReporteServicio.ObtenerClientesSaldoInferior | src/servicio/ReporteServicio.java:36-40 | the `j`-th result is the `j`-th listed client whose total is strictly below the threshold: all of them, once each, in list order |
| Reportes.ReporteServicio.CalcularCapitalTotal | src/servicio/ReporteServicio.java:43-48 | the sum over clients of their total balances; 0 with no clients |
| Reportes.ReporteServicio.IdentificarClientesSinCuentas | src/servicio/ReporteServicio.java:51-55 | the `j`-th result is the `j`-th listed client holding no account: all of them, once each, in list order |
| Reportes.ReporteServicio.IdentificarClientesConMultiplesCuentas | src/servicio/ReporteServicio.java:58-62 | the `j`-th result is the `j`-th listed client holding more than one account: all of them, once each, in list order, none of whom is in the accountless list |
| Reportes.ReporteServicio.CalcularSaldoPromedioPorCliente | src/servicio/ReporteServicio.java:65-72 | 0 with no clients; otherwise `Promedio` of the total capital over the number of clients, the value that times the number of clients gives the total capital |
| Reportes.Promedio | src/servicio/ReporteServicio.java:71 | the average of `n > 0` values with a given total, times `n`, gives back the total |
| Reportes.PromedioUnico | src/servicio/ReporteServicio.java:71 | the average is the only value that, times `n`, gives back the total |
| Reportes.TopCount | src/servicio/ReporteServicio.java:87 | `max(1, ceil(n/5))`: at least 1, at least a fifth of `n`, the least such, and at most `n` when `n > 0` |
| Reportes.IndiceUmbral | src/servicio/ReporteServicio.java:88 | the clamped index is `k - 1` and within the list |
| Reportes.Umbral | src/servicio/ReporteServicio.java:80-88 | the threshold is one of the balances |
| Reportes.ConteoUmbral | src/servicio/ReporteServicio.java:81-88 | against the `k`-th element of a descending permutation of the balances, at least `k` balances reach it and fewer than `k` exceed it |
| Reportes.CuentaPremium | src/servicio/ReporteServicio.java:80-92 | at least `k` balances reach the threshold and fewer than `k` exceed it |
| Reportes.PremiumVacioSiiSinClientes | src/servicio/ReporteServicio.java:75-78 | the premium list is empty exactly when there are no clients |
| Reportes.PremiumAlMenosK | src/servicio/ReporteServicio.java:87-92 | a non-empty client list yields at least `k` premium clients |
| Reportes.PremiumSeparado | src/servicio/ReporteServicio.java:88-92 | a kept client is in the result, and every left-out balance is strictly below every kept balance |
| Reportes.SeleccionUmbral | src/servicio/ReporteServicio.java:90-92 | filtering by "balance reaches `u`" keeps exactly the elements whose balance reaches `u` |
| Reportes.PremiumEsSegmento | src/servicio/ReporteServicio.java:75-93 | the premium selection has at least `k` members and its `j`-th member is the `j`-th element whose balance reaches the threshold, with fewer than `k` balances above it |
| Secuencias.SeleccionarMiembros | src/servicio/ReporteServicio.java:90-92 | every kept element comes from the input with a passing key, and every input element with a passing key is kept |
| Reportes.ReporteServicio.GenerarReporteClientesPremium | src/servicio/ReporteServicio.java:75-93 | empty exactly when there are no clients; otherwise at least `k` clients, and its `j`-th entry is the `j`-th listed client whose total (as `SaldosClientes` gives it) reaches the `k`-th largest total, so each such client once and in list order, with fewer than `k` totals strictly above it |

## Left out

- Main.java (console menus, input parsing, its regular-expression checks and its account-number generator) is user interface and is not part of this model.
- Floating point: amounts are exact `real`s, so IEEE rounding in sums, the interest product and the average is not modelled, and neither are NaN and the infinities. In the source, a NaN amount passes every validation (`NaN <= 0` and `NaN > saldo` are both false), so depositing or withdrawing NaN succeeds and leaves a NaN balance, and an infinite deposit leaves an infinite one; the model's amounts are always finite numbers, so its non-negative balance invariant does not cover these. `Math.ceil(n * 0.2)` is the integer `(n + 4) / 5`.
- Timestamps: `LocalDateTime.now()` is a caller-supplied `Fecha`. A transfer stamps its three entries with one `Fecha`, while the source reads the clock three times. `getFechaLegible` and every `toString` are display only.
- The `GestorClientes` singleton (`instancia`, `getInstance`) is not modelled; the registry is an ordinary object.
- `SaldoInsuficienteException` is never thrown by the modelled code and is not part of this model.
- `Cuenta` is abstract with `CuentaAhorros` its only subclass. Both are one class whose interest policy (`LiquidadorInteres`) is a function-valued field. `AplicarInteres`, `CalcularInteresProyectado` and `GetTasaInteres` belong to the savings account; `GetTasaInteres` requires the savings policy.
- Texto.Mayusculas: `toUpperCase` is modelled for ASCII and Latin-1 letters (with `ÿ` to `Ÿ` and the micro sign `µ` to Greek `Μ`); letters of other scripts and expanding mappings such as `ß` to `SS` are left as they are. `toUpperCase()` follows the JVM's default locale; the model takes a locale without special rules, so the Turkish and Azeri mapping of `i` to `İ` is not modelled.
- Cuentas.Cuenta.ObtenerTransaccionesPorTipo: takes a plain string. A `null` query matches no entry in the source and is not modelled.
- Transacciones.Transaccion.EsTipo: takes a plain string. The source throws on a `null` query, which is not modelled.
- Cuentas.Cuenta.Valid: the history accounts for a balance no greater than the real one (`Libro <= saldo`), not equal to it. Interest is added without an entry, and a transfer logs both a RETIRO and a TRANSFERENCIA_ENVIADA for one debit, so only the inequality holds in the source.
- Error messages: message texts are not modelled; each kind of exception is an `Error` case. Two cases each stand for two differently worded messages: `MontoNoPositivo` for the positive-amount errors of `ValidadorTransaccion` and of the `Transaccion` constructor, and `DocumentoVacio` for the blank-document errors of `Cliente` and of the registry.
- Aliasing between a client's accounts and the accounts of another client, and mutation of clients while a report holds them, are not constrained by the model; each report reads the current balances, as the source does.
