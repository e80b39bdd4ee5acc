/** The immutable transaction record (`Transaccion`): a normalised type, a
    positive amount and the moment it was created. */
module Transacciones {
  import opened Comun
  import opened Texto

  /** The creation time, `LocalDateTime.now()` in the source, taken as an
      opaque value supplied by the caller. */
  type Fecha = int

  /** The three types the accounts record. */
  const DEPOSITO: string := "DEPÓSITO"
  const RETIRO: string := "RETIRO"
  const TRANSFERENCIA_ENVIADA: string := "TRANSFERENCIA_ENVIADA"

  datatype Transaccion = Transaccion(tipo: string, monto: real, fecha: Fecha)
  {
    /** `esTipo`: the stored type equals the query upper-cased (the query is
        not trimmed). Only a query as long as the stored type can match, and
        only an upper-case stored type can match at all. */
    predicate EsTipo(tipoConsulta: string)
      ensures EsTipo(tipoConsulta) ==> |tipoConsulta| == |tipo| && EnMayusculas(tipo)
    {
      MayusculasIdempotente(tipoConsulta);
      tipo == Mayusculas(tipoConsulta)
    }

    /** `equals`: type, amount and timestamp all match. */
    predicate Equals(otra: Transaccion)
      ensures Equals(otra) <==> this == otra
    {
      monto == otra.monto && tipo == otra.tipo && fecha == otra.fecha
    }
  }

  /** The filter of `obtenerTransaccionesPorTipo`: the stored type equals
      `tipo` exactly. */
  function DelTipo(tipo: string): Transaccion -> bool {
    (t: Transaccion) => t.tipo == tipo
  }

  /** What every constructed transaction satisfies: a non-blank type in normal
      form and a positive amount. */
  predicate Bienformada(t: Transaccion) {
    !EnBlanco(Some(t.tipo)) && Normalizar(t.tipo) == t.tipo && t.monto > 0.0
  }

  /** The constructor: it rejects a missing or blank type, then a non-positive
      amount, and otherwise stores the normalised type and the amount as given. */
  function NuevaTransaccion(tipo: Option<string>, monto: real, fecha: Fecha): (r: Result<Transaccion, Error>)
    ensures r.Success? <==> !EnBlanco(tipo) && monto > 0.0
    ensures EnBlanco(tipo) ==> r == Failure(TipoRequerido)
    ensures !EnBlanco(tipo) && monto <= 0.0 ==> r == Failure(MontoNoPositivo)
    ensures r.Success? ==> Bienformada(r.value)
    ensures r.Success? ==> r.value.tipo == Normalizar(tipo.value) && r.value.monto == monto && r.value.fecha == fecha
  {
    if EnBlanco(tipo) then Failure(TipoRequerido)
    else if monto <= 0.0 then Failure(MontoNoPositivo)
    else
      NormalizarIdempotente(tipo.value);
      Success(Transaccion(Normalizar(tipo.value), monto, fecha))
  }

  /** A transaction built from `tipo` answers `esTipo(q)` exactly when `q`
      upper-cased is `tipo` trimmed and upper-cased. */
  lemma EsTipoDeNueva(tipo: string, monto: real, fecha: Fecha, consulta: string)
    requires NuevaTransaccion(Some(tipo), monto, fecha).Success?
    ensures NuevaTransaccion(Some(tipo), monto, fecha).value.EsTipo(consulta) <==>
              Mayusculas(consulta) == Normalizar(tipo)
  {
  }

  /** The query itself is not trimmed: against a well-formed transaction, a
      query with a blank first or last character never matches. */
  lemma EsTipoSinBordes(t: Transaccion, consulta: string)
    requires Bienformada(t)
    ensures t.EsTipo(consulta) ==> consulta != [] && SinBordes(consulta)
  {
    if t.EsTipo(consulta) {
      var n := |consulta|;
      assert SinBordes(Normalizar(t.tipo));
      assert t.tipo[0] == MayusculaDe(consulta[0]);
      assert t.tipo[n - 1] == MayusculaDe(consulta[n - 1]);
    }
  }

  /** `esTipo` ignores the letter case of the query. */
  lemma EsTipoIgnoraMayusculas(t: Transaccion, consulta: string)
    ensures t.EsTipo(consulta) <==> t.EsTipo(Mayusculas(consulta))
  {
    MayusculasIdempotente(consulta);
  }

  /** The three types the accounts use are their own normal form, so the
      constructor stores them unchanged. */
  lemma DepositoFijo()
    ensures Normalizar(DEPOSITO) == DEPOSITO && !EnBlanco(Some(DEPOSITO))
  {
    TipoFijo(DEPOSITO);
  }

  lemma RetiroFijo()
    ensures Normalizar(RETIRO) == RETIRO && !EnBlanco(Some(RETIRO))
  {
    TipoFijo(RETIRO);
  }

  lemma TransferenciaEnviadaFija()
    ensures Normalizar(TRANSFERENCIA_ENVIADA) == TRANSFERENCIA_ENVIADA && !EnBlanco(Some(TRANSFERENCIA_ENVIADA))
  {
    TipoFijo(TRANSFERENCIA_ENVIADA);
  }

  lemma TipoFijo(s: string)
    requires s != [] && SinBordes(s) && EnMayusculas(s)
    ensures Normalizar(s) == s && !EnBlanco(Some(s))
  {
    NormalizarFijo(s);
  }
}
