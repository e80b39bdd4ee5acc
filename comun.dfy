/** Failure-carrying values shared by the whole ledger, and the kinds of error
    the ledger reports. Each `Error` case stands for one kind of
    `IllegalArgumentException` the Java code throws; `MontoNoPositivo` and
    `DocumentoVacio` each cover two messages worded differently. */
module Comun {

  /** A value that may be absent: Java's `null` argument or an empty `Optional`. */
  datatype Option<+T> = None | Some(value: T)

  /** The result of an operation that either yields a value or fails. */
  datatype Result<+T, +E> = Success(value: T) | Failure(error: E)

  /** The result of an operation that yields nothing or fails. */
  datatype Outcome<+E> = Pass | Fail(error: E)

  datatype Error =
    | MontoNoPositivo                                         // "El monto debe ser ... positivo"
    | FondosInsuficientes(disponible: real, solicitado: real) // "Fondos insuficientes. Disponible ..., Solicitado ..."
    | TipoRequerido                                           // "Tipo de transacción requerido"
    | NumeroCuentaVacio                                       // "El número de cuenta no puede estar vacío"
    | LiquidadorNulo                                          // "El liquidador de intereses no puede ser nulo"
    | CuentaDestinoNula                                       // "La cuenta destino no puede ser nula"
    | MismaCuenta                                             // "No se puede transferir a la misma cuenta"
    | NombreVacio                                             // "El nombre del cliente no puede estar vacío"
    | DocumentoVacio                                          // "El documento ... no puede estar vacío"
    | CuentaNula                                              // "La cuenta no puede ser nula"
    | ClienteNulo                                             // "El cliente no puede ser nulo"
    | DocumentoDuplicado(documento: string)                   // "Ya existe un cliente con documento: ..."
    | ListaNula                                               // "La lista de clientes no puede ser nula"
}
