/** Accounts (`Cuenta`) and their only concrete kind, the savings account
    (`CuentaAhorros`). An account owns a balance and an append-only history;
    every mutation validates first, so a failed call changes nothing. */
module Cuentas {
  import opened Comun
  import opened Texto
  import opened Validador
  import opened Transacciones
  import opened Secuencias

  /** `TASA_INTERES`: the savings rate, 2%. */
  const TASA_INTERES: real := 0.02

  /** `LIQUIDADOR_AHORROS`: the savings interest policy, balance times the rate. */
  function LiquidadorAhorros(saldo: real): real {
    saldo * TASA_INTERES
  }

  /** What one history entry contributes to the balance: a deposit adds its
      amount and a withdrawal subtracts it; a transfer is already logged as a
      withdrawal, so its TRANSFERENCIA_ENVIADA entry contributes nothing. */
  function Efecto(t: Transaccion): real {
    if t.tipo == DEPOSITO then t.monto
    else if t.tipo == RETIRO then -t.monto
    else 0.0
  }

  /** The balance the history accounts for. */
  function Libro(h: seq<Transaccion>): real {
    if h == [] then 0.0 else Libro(h[..|h| - 1]) + Efecto(h[|h| - 1])
  }

  /** The balance after interest: the interest is added only when positive. */
  function SaldoConInteres(saldo: real, interes: real): real {
    if interes > 0.0 then saldo + interes else saldo
  }

  /** Under the savings policy a positive balance grows by exactly 2% and any
      other balance is left as it is. */
  lemma InteresAhorros(saldo: real)
    ensures SaldoConInteres(saldo, LiquidadorAhorros(saldo)) == if saldo > 0.0 then saldo * 1.02 else saldo
  {
  }

  class Cuenta {
    const numero: string
    var saldo: real
    var transacciones: seq<Transaccion>
    const liquidador: real -> real

    /** The account invariant: a trimmed, non-blank number; a non-negative
        balance; well-formed history entries; and a balance never below what
        the history accounts for (the difference is unlogged interest). */
    ghost predicate Valid()
      reads this
    {
      && !EnBlanco(Some(numero)) && Recortar(numero) == numero
      && 0.0 <= saldo
      && (forall i :: 0 <= i < |transacciones| ==> Bienformada(transacciones[i]))
      && Libro(transacciones) <= saldo
    }

    /** The account was built by the savings constructor. */
    ghost predicate EsAhorros() {
      liquidador == LiquidadorAhorros
    }

    /** The constructor once its arguments have been validated. */
    constructor (numero: string, liquidador: real -> real)
      requires !EnBlanco(Some(numero))
      ensures Valid()
      ensures this.numero == Recortar(numero) && this.liquidador == liquidador
      ensures saldo == 0.0 && transacciones == []
    {
      RecortarIdempotente(numero);
      this.numero := Recortar(numero);
      this.liquidador := liquidador;
      saldo := 0.0;
      transacciones := [];
    }

    /** `Cuenta(numero, liquidador)`: rejects a missing or blank number, then
        a missing policy; otherwise a fresh account with the trimmed number,
        balance 0 and an empty history. */
    static method Crear(numero: Option<string>, liquidador: Option<real -> real>) returns (r: Result<Cuenta, Error>)
      ensures r.Success? <==> !EnBlanco(numero) && liquidador.Some?
      ensures EnBlanco(numero) ==> r == Failure(NumeroCuentaVacio)
      ensures !EnBlanco(numero) && liquidador.None? ==> r == Failure(LiquidadorNulo)
      ensures r.Success? ==> fresh(r.value) && r.value.Valid()
      ensures r.Success? ==> r.value.numero == Recortar(numero.value) && r.value.liquidador == liquidador.value
      ensures r.Success? ==> r.value.saldo == 0.0 && r.value.transacciones == []
    {
      if EnBlanco(numero) {
        return Failure(NumeroCuentaVacio);
      }
      if liquidador.None? {
        return Failure(LiquidadorNulo);
      }
      var c := new Cuenta(numero.value, liquidador.value);
      r := Success(c);
    }

    /** `CuentaAhorros(numero)`: an account bound to the 2% savings policy. */
    static method CrearAhorros(numero: Option<string>) returns (r: Result<Cuenta, Error>)
      ensures r.Success? <==> !EnBlanco(numero)
      ensures EnBlanco(numero) ==> r == Failure(NumeroCuentaVacio)
      ensures r.Success? ==> fresh(r.value) && r.value.Valid() && r.value.EsAhorros()
      ensures r.Success? ==> r.value.numero == Recortar(numero.value)
      ensures r.Success? ==> r.value.saldo == 0.0 && r.value.transacciones == []
    {
      r := Crear(numero, Some(LiquidadorAhorros));
    }

    /** `registrarTransaccion`: appends a transaction built by the
        `Transaccion` constructor. */
    method RegistrarTransaccion(tipo: string, monto: real, fecha: Fecha)
      requires Normalizar(tipo) == tipo && !EnBlanco(Some(tipo)) && monto > 0.0
      modifies this`transacciones
      ensures transacciones == old(transacciones) + [Transaccion(tipo, monto, fecha)]
    {
      var t := NuevaTransaccion(Some(tipo), monto, fecha);
      transacciones := transacciones + [t.value];
    }

    /** `depositar`: on a positive amount the balance grows by it and one
        DEPÓSITO entry is appended; otherwise nothing changes. */
    method Depositar(monto: real, fecha: Fecha) returns (r: Outcome<Error>)
      requires Valid()
      modifies this
      ensures Valid()
      ensures r == ValidarDeposito(monto)
      ensures r.Pass? ==> saldo == old(saldo) + monto
      ensures r.Pass? ==> transacciones == old(transacciones) + [Transaccion(DEPOSITO, monto, fecha)]
      ensures r.Fail? ==> saldo == old(saldo) && transacciones == old(transacciones)
    {
      r := ValidarDeposito(monto);
      if r.Fail? {
        return;
      }
      saldo := saldo + monto;
      DepositoFijo();
      RegistrarTransaccion(DEPOSITO, monto, fecha);
      LibroAlFinal(old(transacciones), Transaccion(DEPOSITO, monto, fecha));
    }

    /** `retirar`: on a positive amount no larger than the balance the balance
        shrinks by it and one RETIRO entry is appended; otherwise nothing
        changes. */
    method Retirar(monto: real, fecha: Fecha) returns (r: Outcome<Error>)
      requires Valid()
      modifies this
      ensures Valid()
      ensures r == ValidarRetiro(old(saldo), monto)
      ensures r.Pass? ==> saldo == old(saldo) - monto
      ensures r.Pass? ==> transacciones == old(transacciones) + [Transaccion(RETIRO, monto, fecha)]
      ensures r.Fail? ==> saldo == old(saldo) && transacciones == old(transacciones)
    {
      r := ValidarRetiro(saldo, monto);
      if r.Fail? {
        return;
      }
      saldo := saldo - monto;
      RetiroFijo();
      RegistrarTransaccion(RETIRO, monto, fecha);
      LibroAlFinal(old(transacciones), Transaccion(RETIRO, monto, fecha));
    }

    /** `transferir`: validated like a withdrawal, then the destination must be
        present and differ from this account by number. On success this account
        is debited and logs RETIRO then TRANSFERENCIA_ENVIADA, the destination
        is credited and logs one DEPÓSITO. A failure changes neither account. */
    method Transferir(destino: Cuenta?, monto: real, fecha: Fecha) returns (r: Outcome<Error>)
      requires Valid()
      requires destino != null ==> destino.Valid()
      modifies this, destino
      ensures Valid()
      ensures destino != null ==> destino.Valid()
      ensures r.Pass? <==> 0.0 < monto <= old(saldo) && destino != null && destino.numero != numero
      ensures ValidarTransferencia(old(saldo), monto).Fail? ==> r == ValidarTransferencia(old(saldo), monto)
      ensures ValidarTransferencia(old(saldo), monto).Pass? && destino == null ==> r == Fail(CuentaDestinoNula)
      ensures ValidarTransferencia(old(saldo), monto).Pass? && destino != null && destino.numero == numero ==>
                r == Fail(MismaCuenta)
      ensures r.Pass? ==> saldo == old(saldo) - monto && destino.saldo == old(destino.saldo) + monto
      ensures r.Pass? ==> saldo + destino.saldo == old(saldo) + old(destino.saldo)
      ensures r.Pass? ==> transacciones == old(transacciones) + [Transaccion(RETIRO, monto, fecha), Transaccion(TRANSFERENCIA_ENVIADA, monto, fecha)]
      ensures r.Pass? ==> destino.transacciones == old(destino.transacciones) + [Transaccion(DEPOSITO, monto, fecha)]
      ensures r.Fail? ==> saldo == old(saldo) && transacciones == old(transacciones)
      ensures r.Fail? && destino != null ==> destino.saldo == old(destino.saldo) && destino.transacciones == old(destino.transacciones)
    {
      r := ValidarTransferencia(saldo, monto);
      if r.Fail? {
        return;
      }
      TransferenciaEsRetiro(saldo, monto);
      if destino == null {
        return Fail(CuentaDestinoNula);
      }
      if destino.Equals(this) {
        return Fail(MismaCuenta);
      }
      EjecutarTransferencia(destino, monto, fecha);
    }

    /** The mutating half of `transferir`, once validation has passed:
        `retirar` here, `depositar` on the destination, then the
        TRANSFERENCIA_ENVIADA entry here. */
    method EjecutarTransferencia(destino: Cuenta, monto: real, fecha: Fecha)
      requires Valid() && destino.Valid()
      requires 0.0 < monto <= saldo && destino.numero != numero
      modifies this, destino
      ensures Valid() && destino.Valid()
      ensures saldo == old(saldo) - monto && destino.saldo == old(destino.saldo) + monto
      ensures transacciones == old(transacciones) + [Transaccion(RETIRO, monto, fecha), Transaccion(TRANSFERENCIA_ENVIADA, monto, fecha)]
      ensures destino.transacciones == old(destino.transacciones) + [Transaccion(DEPOSITO, monto, fecha)]
    {
      ghost var inicial := transacciones;
      ghost var debito, aviso := Transaccion(RETIRO, monto, fecha), Transaccion(TRANSFERENCIA_ENVIADA, monto, fecha);
      var retiro := Retirar(monto, fecha);
      var deposito := destino.Depositar(monto, fecha);
      RegistrarTransferenciaEnviada(monto, fecha);
      AgregarDos(inicial, debito, aviso);
    }

    /** The TRANSFERENCIA_ENVIADA entry that closes a transfer: logged without
        touching the balance, so the account invariant is kept. */
    method RegistrarTransferenciaEnviada(monto: real, fecha: Fecha)
      requires Valid() && monto > 0.0
      modifies this`transacciones
      ensures Valid()
      ensures transacciones == old(transacciones) + [Transaccion(TRANSFERENCIA_ENVIADA, monto, fecha)]
    {
      TransferenciaEnviadaFija();
      RegistrarTransaccion(TRANSFERENCIA_ENVIADA, monto, fecha);
      LibroAlFinal(old(transacciones), Transaccion(TRANSFERENCIA_ENVIADA, monto, fecha));
    }

    /** `aplicarInteres` of the savings account: the policy's interest on the
        current balance is added only when it is positive, and nothing is
        logged. */
    method AplicarInteres()
      requires Valid()
      modifies this`saldo
      ensures Valid()
      ensures saldo == SaldoConInteres(old(saldo), liquidador(old(saldo)))
      ensures old(saldo) <= saldo
    {
      var interes := liquidador(saldo);
      if interes > 0.0 {
        saldo := saldo + interes;
      }
    }

    /** `calcularInteresProyectado`: the policy applied to the current balance,
        2% of it on a savings account, with no change of state. */
    function CalcularInteresProyectado(): (r: real)
      reads this
      ensures r == liquidador(saldo)
      ensures EsAhorros() ==> r == saldo * TASA_INTERES
      ensures EsAhorros() && saldo >= 0.0 ==> r >= 0.0
    {
      liquidador(saldo)
    }

    /** `getTasaInteres` of the savings account: the rate its policy charges. */
    function GetTasaInteres(): (r: real)
      requires EsAhorros()
      ensures r == 0.02
      ensures forall s :: liquidador(s) == s * r
    {
      TASA_INTERES
    }

    /** `obtenerHistorial`: a copy of the history; every entry is well formed
        and the entries account for no more than the balance. */
    function ObtenerHistorial(): (r: seq<Transaccion>)
      reads this
      requires Valid()
      ensures forall i :: 0 <= i < |r| ==> Bienformada(r[i]) && r[i].monto > 0.0
      ensures Libro(r) <= saldo
    {
      transacciones
    }

    /** `obtenerTransaccionesPorTipo`: the entries whose type equals `tipo`
        exactly, in history order. */
    function ObtenerTransaccionesPorTipo(tipo: string): (r: seq<Transaccion>)
      reads this
      ensures |r| <= |transacciones|
      ensures forall j :: 0 <= j < |r| ==> r[j] in transacciones && r[j].tipo == tipo
      ensures forall i :: 0 <= i < |transacciones| && transacciones[i].tipo == tipo ==> transacciones[i] in r
      ensures |r| == |Indices(transacciones, DelTipo(tipo))|
      ensures forall j :: 0 <= j < |r| ==> r[j] == transacciones[Indices(transacciones, DelTipo(tipo))[j]]
    {
      Filtrar(transacciones, DelTipo(tipo))
    }

    /** `getCantidadTransacciones`: the length of the history. */
    function GetCantidadTransacciones(): (r: nat)
      reads this
      requires Valid()
      ensures r == |ObtenerHistorial()|
    {
      |transacciones|
    }

    /** `equals`: accounts are equal exactly when their numbers are. */
    predicate Equals(otra: Cuenta?)
      ensures Equals(otra) <==> otra != null && otra.numero == numero
    {
      if otra == this then true
      else otra != null && numero == otra.numero
    }
  }

  /** `mapToDouble(Cuenta::getSaldo)`: the balances of `cs`, in order. */
  function SaldosDe(cs: seq<Cuenta>): (r: seq<real>)
    reads cs
    ensures |r| == |cs|
    ensures forall i :: 0 <= i < |cs| ==> r[i] == cs[i].saldo
  {
    seq(|cs|, i reads cs requires 0 <= i < |cs| => cs[i].saldo)
  }

  /** Appending one entry moves the ledger by that entry's effect. */
  lemma LibroAlFinal(h: seq<Transaccion>, t: Transaccion)
    ensures Libro(h + [t]) == Libro(h) + Efecto(t)
  {
    assert (h + [t])[..|h + [t]| - 1] == h;
  }
}
