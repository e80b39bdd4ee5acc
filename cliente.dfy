/** A bank client (`Cliente`): a name, an identifying document, and an ordered
    collection of accounts in which no two accounts share a number. */
module Clientes {
  import opened Comun
  import opened Texto
  import opened Secuencias
  import opened Cuentas

  /** No two accounts of `cs` share a number. */
  predicate NumerosUnicos(cs: seq<Cuenta>) {
    forall i, j :: 0 <= i < j < |cs| ==> cs[i].numero != cs[j].numero
  }

  class Cliente {
    const nombre: string
    const documento: string
    var cuentas: seq<Cuenta>

    /** The client invariant: trimmed, non-blank name and document, and
        account numbers pairwise distinct. */
    ghost predicate Valid()
      reads this
    {
      && !EnBlanco(Some(nombre)) && Recortar(nombre) == nombre
      && !EnBlanco(Some(documento)) && Recortar(documento) == documento
      && NumerosUnicos(cuentas)
    }

    /** The constructor once its arguments have been validated. */
    constructor (nombre: string, documento: string)
      requires !EnBlanco(Some(nombre)) && !EnBlanco(Some(documento))
      ensures Valid()
      ensures this.nombre == Recortar(nombre) && this.documento == Recortar(documento)
      ensures cuentas == []
    {
      RecortarIdempotente(nombre);
      RecortarIdempotente(documento);
      this.nombre := Recortar(nombre);
      this.documento := Recortar(documento);
      cuentas := [];
    }

    /** `Cliente(nombre, documento)`: rejects a missing or blank name, then a
        missing or blank document; otherwise a fresh client with both trimmed
        and no accounts. */
    static method Crear(nombre: Option<string>, documento: Option<string>) returns (r: Result<Cliente, Error>)
      ensures r.Success? <==> !EnBlanco(nombre) && !EnBlanco(documento)
      ensures EnBlanco(nombre) ==> r == Failure(NombreVacio)
      ensures !EnBlanco(nombre) && EnBlanco(documento) ==> r == Failure(DocumentoVacio)
      ensures r.Success? ==> fresh(r.value) && r.value.Valid() && r.value.cuentas == []
      ensures r.Success? ==> r.value.nombre == Recortar(nombre.value) && r.value.documento == Recortar(documento.value)
    {
      if EnBlanco(nombre) {
        return Failure(NombreVacio);
      }
      if EnBlanco(documento) {
        return Failure(DocumentoVacio);
      }
      var c := new Cliente(nombre.value, documento.value);
      r := Success(c);
    }

    /** `buscarCuenta`: rejects a missing or blank number; otherwise the first
        account whose number equals it exactly, if any. */
    function BuscarCuenta(numeroCuenta: Option<string>): (r: Result<Option<Cuenta>, Error>)
      reads this
      ensures EnBlanco(numeroCuenta) <==> r.Failure?
      ensures r.Failure? ==> r.error == NumeroCuentaVacio
      ensures r.Success? ==> (r.value.None? <==> forall i :: 0 <= i < |cuentas| ==> cuentas[i].numero != numeroCuenta.value)
      ensures r.Success? && r.value.Some? ==>
                exists i :: 0 <= i < |cuentas| && cuentas[i] == r.value.value && r.value.value.numero == numeroCuenta.value &&
                            forall j :: 0 <= j < i ==> cuentas[j].numero != numeroCuenta.value
    {
      if EnBlanco(numeroCuenta) then Failure(NumeroCuentaVacio)
      else Success(Primero(cuentas, (c: Cuenta) => c.numero == numeroCuenta.value))
    }

    /** `tieneCuenta`: whether `buscarCuenta` finds an account, failing as it
        does on a blank number. */
    function TieneCuenta(numeroCuenta: Option<string>): (r: Result<bool, Error>)
      reads this
      ensures r.Failure? <==> BuscarCuenta(numeroCuenta).Failure?
      ensures r.Failure? ==> r.error == NumeroCuentaVacio
      ensures r.Success? ==> (r.value <==> BuscarCuenta(numeroCuenta).value.Some?)
      ensures r.Success? ==> (r.value <==> exists i :: 0 <= i < |cuentas| && cuentas[i].numero == numeroCuenta.value)
    {
      match BuscarCuenta(numeroCuenta)
      case Failure(e) => Failure(e)
      case Success(encontrada) => Success(encontrada.Some?)
    }

    /** `agregarCuenta`: rejects a missing account; appends the account unless
        one with the same number is already held, in which case nothing
        changes. The total balance grows by the balance of an appended account. */
    method AgregarCuenta(cuenta: Cuenta?) returns (r: Outcome<Error>)
      requires Valid()
      modifies this
      ensures Valid()
      ensures cuenta == null ==> r == Fail(CuentaNula)
      ensures cuenta != null ==> r == (if EnBlanco(Some(cuenta.numero)) then Fail(NumeroCuentaVacio) else Pass)
      ensures r.Fail? ==> cuentas == old(cuentas)
      ensures r.Pass? && (exists i :: 0 <= i < |old(cuentas)| && old(cuentas)[i].numero == cuenta.numero) ==>
                cuentas == old(cuentas)
      ensures r.Pass? && (forall i :: 0 <= i < |old(cuentas)| ==> old(cuentas)[i].numero != cuenta.numero) ==>
                cuentas == old(cuentas) + [cuenta] &&
                CalcularSaldoTotal() == old(CalcularSaldoTotal()) + cuenta.saldo
    {
      if cuenta == null {
        return Fail(CuentaNula);
      }
      var tiene := TieneCuenta(Some(cuenta.numero));
      if tiene.Failure? {
        return Fail(tiene.error);
      }
      if !tiene.value {
        SumaConcat(SaldosDe(cuentas), [cuenta.saldo]);
        assert SaldosDe(cuentas + [cuenta]) == SaldosDe(cuentas) + [cuenta.saldo];
        cuentas := cuentas + [cuenta];
      }
      r := Pass;
    }

    /** `eliminarCuenta`: rejects a missing or blank number; otherwise removes
        every account with that number, keeps the rest in order, and reports
        whether any was removed. */
    method EliminarCuenta(numeroCuenta: Option<string>) returns (r: Result<bool, Error>)
      requires Valid()
      modifies this
      ensures Valid()
      ensures EnBlanco(numeroCuenta) ==> r == Failure(NumeroCuentaVacio) && cuentas == old(cuentas)
      ensures !EnBlanco(numeroCuenta) ==>
                r.Success? &&
                (r.value <==> exists i :: 0 <= i < |old(cuentas)| && old(cuentas)[i].numero == numeroCuenta.value) &&
                cuentas == Filtrar(old(cuentas), (c: Cuenta) => c.numero != numeroCuenta.value)
      ensures !EnBlanco(numeroCuenta) ==> TieneCuenta(numeroCuenta) == Success(false)
    {
      if EnBlanco(numeroCuenta) {
        return Failure(NumeroCuentaVacio);
      }
      var n := numeroCuenta.value;
      var restantes := Filtrar(cuentas, (c: Cuenta) => c.numero != n);
      QuitarPorNumero(cuentas, n);
      r := Success(|restantes| < |cuentas|);
      cuentas := restantes;
    }

    /** `calcularSaldoTotal`: the sum of the account balances; 0 with no
        accounts, and never negative while every account keeps its invariant. */
    function CalcularSaldoTotal(): (r: real)
      reads this, cuentas
      ensures cuentas == [] ==> r == 0.0
      ensures (forall i :: 0 <= i < |cuentas| ==> cuentas[i].saldo >= 0.0) ==> r >= 0.0
    {
      var saldos := SaldosDe(cuentas);
      if forall i :: 0 <= i < |cuentas| ==> cuentas[i].saldo >= 0.0 then
        SumaNoNegativa(saldos);
        Suma(saldos)
      else
        Suma(saldos)
    }

    /** `getCuentas`: a copy of the accounts, numbers pairwise distinct. */
    function GetCuentas(): (r: seq<Cuenta>)
      reads this
      requires Valid()
      ensures NumerosUnicos(r)
    {
      cuentas
    }

    /** `getCantidadCuentas`: how many accounts the client holds. */
    function GetCantidadCuentas(): (r: nat)
      reads this
      requires Valid()
      ensures r == |GetCuentas()|
    {
      |cuentas|
    }

    /** `equals`: clients are equal exactly when their documents are. */
    predicate Equals(otro: Cliente?)
      ensures Equals(otro) <==> otro != null && otro.documento == documento
    {
      if otro == this then true
      else otro != null && documento == otro.documento
    }
  }

  /** Removing the accounts keyed `k` keeps keys pairwise distinct, leaves no
      account keyed `k`, and shortens the list exactly when one was keyed `k`. */
  lemma QuitarPorNumero(cs: seq<Cuenta>, k: string)
    requires NumerosUnicos(cs)
    ensures NumerosUnicos(Filtrar(cs, (c: Cuenta) => c.numero != k))
    ensures forall c :: c in Filtrar(cs, (c: Cuenta) => c.numero != k) ==> c.numero != k
    ensures |Filtrar(cs, (c: Cuenta) => c.numero != k)| < |cs| <==> exists i :: 0 <= i < |cs| && cs[i].numero == k
  {
    FiltrarConservaClavesUnicas(cs, (c: Cuenta) => c.numero != k, (c: Cuenta) => c.numero);
  }
}
