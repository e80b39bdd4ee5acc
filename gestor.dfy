/** The client registry (`GestorClientes`): an ordered store of clients in
    which no two clients share a document. The source keeps one process-wide
    instance; here the registry is an ordinary object its callers own. */
module Gestor {
  import opened Comun
  import opened Texto
  import opened Secuencias
  import opened Clientes

  /** No two clients of `cs` share a document. */
  predicate DocumentosUnicos(cs: seq<Cliente>) {
    forall i, j :: 0 <= i < j < |cs| ==> cs[i].documento != cs[j].documento
  }

  class GestorClientes {
    var clientes: seq<Cliente>

    ghost predicate Valid()
      reads this
    {
      DocumentosUnicos(clientes)
    }

    constructor ()
      ensures Valid() && clientes == []
    {
      clientes := [];
    }

    /** `buscarCliente`: rejects a missing or blank document; otherwise the
        first client whose document equals it exactly, if any. */
    function BuscarCliente(documento: Option<string>): (r: Result<Option<Cliente>, Error>)
      reads this
      ensures EnBlanco(documento) <==> r.Failure?
      ensures r.Failure? ==> r.error == DocumentoVacio
      ensures r.Success? ==> (r.value.None? <==> forall i :: 0 <= i < |clientes| ==> clientes[i].documento != documento.value)
      ensures r.Success? && r.value.Some? ==>
                exists i :: 0 <= i < |clientes| && clientes[i] == r.value.value && r.value.value.documento == documento.value &&
                            forall j :: 0 <= j < i ==> clientes[j].documento != documento.value
    {
      if EnBlanco(documento) then Failure(DocumentoVacio)
      else Success(Primero(clientes, (c: Cliente) => c.documento == documento.value))
    }

    /** `existeCliente`: whether `buscarCliente` finds a client, failing as it
        does on a blank document. */
    function ExisteCliente(documento: Option<string>): (r: Result<bool, Error>)
      reads this
      ensures r.Failure? <==> BuscarCliente(documento).Failure?
      ensures r.Failure? ==> r.error == DocumentoVacio
      ensures r.Success? ==> (r.value <==> BuscarCliente(documento).value.Some?)
      ensures r.Success? ==> (r.value <==> exists i :: 0 <= i < |clientes| && clientes[i].documento == documento.value)
    {
      match BuscarCliente(documento)
      case Failure(e) => Failure(e)
      case Success(encontrado) => Success(encontrado.Some?)
    }

    /** `registrarCliente`: rejects a missing client, then a blank document,
        then a document already registered; otherwise appends the client, which
        `buscarCliente` then finds. A failure leaves the store unchanged. */
    method RegistrarCliente(cliente: Cliente?) returns (r: Outcome<Error>)
      requires Valid()
      modifies this
      ensures Valid()
      ensures cliente == null ==> r == Fail(ClienteNulo)
      ensures cliente != null && EnBlanco(Some(cliente.documento)) ==> r == Fail(DocumentoVacio)
      ensures cliente != null && !EnBlanco(Some(cliente.documento)) &&
              (exists i :: 0 <= i < |old(clientes)| && old(clientes)[i].documento == cliente.documento) ==>
                r == Fail(DocumentoDuplicado(cliente.documento))
      ensures r.Pass? <==> cliente != null && !EnBlanco(Some(cliente.documento)) &&
                           forall i :: 0 <= i < |old(clientes)| ==> old(clientes)[i].documento != cliente.documento
      ensures r.Pass? ==> clientes == old(clientes) + [cliente] && |clientes| == |old(clientes)| + 1
      ensures r.Pass? ==> BuscarCliente(Some(cliente.documento)) == Success(Some(cliente))
      ensures r.Fail? ==> clientes == old(clientes)
    {
      if cliente == null {
        return Fail(ClienteNulo);
      }
      var existe := ExisteCliente(Some(cliente.documento));
      if existe.Failure? {
        return Fail(existe.error);
      }
      if existe.value {
        return Fail(DocumentoDuplicado(cliente.documento));
      }
      clientes := clientes + [cliente];
      r := Pass;
      PrimeroAlFinal(old(clientes), cliente);
    }

    /** `eliminarCliente`: rejects a missing or blank document; otherwise
        removes every client with that document, keeps the rest in order, and
        reports whether any was removed. */
    method EliminarCliente(documento: Option<string>) returns (r: Result<bool, Error>)
      requires Valid()
      modifies this
      ensures Valid()
      ensures EnBlanco(documento) ==> r == Failure(DocumentoVacio) && clientes == old(clientes)
      ensures !EnBlanco(documento) ==>
                r.Success? &&
                (r.value <==> exists i :: 0 <= i < |old(clientes)| && old(clientes)[i].documento == documento.value) &&
                clientes == Filtrar(old(clientes), (c: Cliente) => c.documento != documento.value)
      ensures !EnBlanco(documento) ==> ExisteCliente(documento) == Success(false)
    {
      if EnBlanco(documento) {
        return Failure(DocumentoVacio);
      }
      var d := documento.value;
      var restantes := Filtrar(clientes, (c: Cliente) => c.documento != d);
      QuitarPorDocumento(clientes, d);
      r := Success(|restantes| < |clientes|);
      clientes := restantes;
    }

    /** `obtenerClientes`: a copy of the store, documents pairwise distinct. */
    function ObtenerClientes(): (r: seq<Cliente>)
      reads this
      requires Valid()
      ensures DocumentosUnicos(r)
    {
      clientes
    }

    /** `contarClientes`: the number of registered clients. */
    function ContarClientes(): (r: nat)
      reads this
      requires Valid()
      ensures r == |ObtenerClientes()|
    {
      |clientes|
    }
  }

  /** In a store whose documents are all different from `c`'s, the first
      client with `c`'s document after appending `c` is `c`. */
  lemma PrimeroAlFinal(cs: seq<Cliente>, c: Cliente)
    requires forall i :: 0 <= i < |cs| ==> cs[i].documento != c.documento
    ensures Primero(cs + [c], (x: Cliente) => x.documento == c.documento) == Some(c)
  {
    var p := (x: Cliente) => x.documento == c.documento;
    var i := PosicionPrimero(cs + [c], p);
    assert (cs + [c])[|cs|] == c;
    assert i == |cs|;
  }

  /** Removing the clients keyed `k` keeps keys pairwise distinct, leaves no
      client keyed `k`, and shortens the list exactly when one was keyed `k`. */
  lemma QuitarPorDocumento(cs: seq<Cliente>, k: string)
    requires DocumentosUnicos(cs)
    ensures DocumentosUnicos(Filtrar(cs, (c: Cliente) => c.documento != k))
    ensures forall c :: c in Filtrar(cs, (c: Cliente) => c.documento != k) ==> c.documento != k
    ensures |Filtrar(cs, (c: Cliente) => c.documento != k)| < |cs| <==> exists i :: 0 <= i < |cs| && cs[i].documento == k
  {
    FiltrarConservaClavesUnicas(cs, (c: Cliente) => c.documento != k, (c: Cliente) => c.documento);
  }
}
