/** Financial reports (`ReporteServicio`) over a snapshot of the client list:
    totals, the average, threshold and account-count filters, and the
    "premium" top-20% segment. The list is copied once; every report reads the
    clients' current accounts and balances. */
module Reportes {
  import opened Comun
  import opened Secuencias
  import opened Cuentas
  import opened Clientes

  /** `Math.max(1, (int) Math.ceil(n * 0.2))`: the least `k >= 1` with
      `5 * k >= n`, which never exceeds a positive `n`. */
  function TopCount(n: nat): (k: nat)
    ensures 1 <= k && n <= 5 * k
    ensures n > 0 ==> k <= n && 5 * (k - 1) < n
  {
    var techo := (n + 4) / 5;
    if techo < 1 then 1 else techo
  }

  /** `Math.min(topCount - 1, saldos.size() - 1)`: the position of the
      threshold in the sorted balances; the `min` never changes the value. */
  function IndiceUmbral(n: nat): (i: nat)
    requires n > 0
    ensures i == TopCount(n) - 1 && i < n
  {
    var k := TopCount(n);
    if k - 1 < n - 1 then k - 1 else n - 1
  }

  /** The premium threshold: the `k`-th largest balance. */
  function Umbral(saldos: seq<real>): (u: real)
    requires |saldos| > 0
    ensures u in saldos
  {
    var ordenados := OrdenarDesc(saldos);
    assert ordenados[IndiceUmbral(|saldos|)] in multiset(saldos);
    ordenados[IndiceUmbral(|saldos|)]
  }

  /** A balance reaches the threshold `u`. */
  function AlMenos(u: real): real -> bool {
    (s: real) => s >= u
  }

  /** A balance strictly exceeds the threshold `u`. */
  function SobreUmbral(u: real): real -> bool {
    (s: real) => s > u
  }

  /** A balance is strictly below the threshold `u`. */
  function BajoUmbral(u: real): real -> bool {
    (s: real) => s < u
  }

  /** A client holding no account, by its number of accounts. */
  function SinCuentas(): nat -> bool {
    (n: nat) => n == 0
  }

  /** A client holding more than one account, by its number of accounts. */
  function VariasCuentas(): nat -> bool {
    (n: nat) => n > 1
  }

  /** A balance is premium when it reaches the threshold (ties included). */
  function EsPremium(saldos: seq<real>): real -> bool
    requires |saldos| > 0
  {
    AlMenos(Umbral(saldos))
  }

  /** `generarReporteClientesPremium` over explicit balances: nothing for no
      clients, otherwise every client whose balance reaches the threshold, in
      list order. */
  function Premium<T>(xs: seq<T>, saldos: seq<real>): seq<T>
    requires |xs| == |saldos|
  {
    if xs == [] then [] else Seleccionar(xs, saldos, EsPremium(saldos))
  }

  /** Against the `k`-th element of a descending arrangement of the balances,
      at least `k` balances reach it (the first `k` of the arrangement do) and
      fewer than `k` exceed it (none from position `k - 1` on does). */
  lemma ConteoUmbral(saldos: seq<real>, ordenados: seq<real>, k: nat)
    requires multiset(saldos) == multiset(ordenados) && Descendente(ordenados)
    requires 0 < k <= |ordenados|
    ensures Contar(saldos, AlMenos(ordenados[k - 1])) >= k
    ensures Contar(saldos, SobreUmbral(ordenados[k - 1])) < k
  {
    var u := ordenados[k - 1];
    assert forall i :: 0 <= i < k ==> AlMenos(u)(ordenados[i]);
    ContarPrefijo(ordenados, AlMenos(u), k);
    ContarPermutacion(saldos, ordenados, AlMenos(u));
    assert forall i :: k - 1 <= i < |ordenados| ==> !SobreUmbral(u)(ordenados[i]);
    ContarAcotado(ordenados, SobreUmbral(u), k - 1);
    ContarPermutacion(saldos, ordenados, SobreUmbral(u));
  }

  /** At least `k` balances reach the threshold and fewer than `k` exceed it:
      the segment is the top `k` plus whatever ties with the `k`-th. */
  lemma CuentaPremium(saldos: seq<real>)
    requires |saldos| > 0
    ensures Contar(saldos, EsPremium(saldos)) >= TopCount(|saldos|)
    ensures Contar(saldos, SobreUmbral(Umbral(saldos))) < TopCount(|saldos|)
  {
    ConteoUmbral(saldos, OrdenarDesc(saldos), TopCount(|saldos|));
  }

  /** The premium segment is empty exactly when there are no clients. */
  lemma PremiumVacioSiiSinClientes<T>(xs: seq<T>, saldos: seq<real>)
    requires |xs| == |saldos|
    ensures Premium(xs, saldos) == [] <==> xs == []
  {
    if xs != [] {
      PremiumAlMenosK(xs, saldos);
    }
  }

  /** A non-empty client list yields at least `k` premium clients. */
  lemma PremiumAlMenosK<T>(xs: seq<T>, saldos: seq<real>)
    requires |xs| == |saldos| && |xs| > 0
    ensures |Premium(xs, saldos)| >= TopCount(|xs|)
    ensures Contar(saldos, SobreUmbral(Umbral(saldos))) < TopCount(|xs|)
  {
    IndicesCuenta(saldos, EsPremium(saldos));
    CuentaPremium(saldos);
  }

  /** The premium segment is an order-preserving selection of the clients, and
      every client left out has a balance strictly below every client kept. */
  lemma PremiumSeparado<T>(xs: seq<T>, saldos: seq<real>, dentro: nat, fuera: nat)
    requires |xs| == |saldos| && |xs| > 0
    requires dentro < |xs| && fuera < |xs|
    requires dentro in Indices(saldos, EsPremium(saldos)) && fuera !in Indices(saldos, EsPremium(saldos))
    ensures saldos[fuera] < saldos[dentro]
    ensures xs[dentro] in Premium(xs, saldos)
  {
    var u, p := Umbral(saldos), EsPremium(saldos);
    var ix := Indices(saldos, p);
    var j :| 0 <= j < |ix| && ix[j] == dentro;
    assert p(saldos[dentro]) && !p(saldos[fuera]);
    assert saldos[fuera] < u <= saldos[dentro];
    assert Seleccionar(xs, saldos, p)[j] == xs[dentro];
  }

  /** The accounts the clients of `cs` currently hold. */
  ghost function Huella(cs: seq<Cliente>): set<Cuenta>
    reads cs
  {
    set c, a | c in cs && a in c.cuentas :: a
  }

  /** `calcularSaldoTotalCliente`: the report's own sum over a client's
      accounts, which agrees with the client's `calcularSaldoTotal`. */
  function SaldoTotalCliente(c: Cliente): (r: real)
    reads c, c.cuentas
    ensures r == c.CalcularSaldoTotal()
  {
    Suma(SaldosDe(c.cuentas))
  }

  /** Each client's total balance, in list order. */
  function SaldosClientes(cs: seq<Cliente>): (r: seq<real>)
    reads cs, Huella(cs)
    decreases |cs|
    ensures |r| == |cs|
    ensures forall i :: 0 <= i < |cs| ==> r[i] == cs[i].CalcularSaldoTotal()
  {
    if cs == [] then []
    else
      assert forall a :: a in cs[0].cuentas ==> a in Huella(cs);
      [SaldoTotalCliente(cs[0])] + SaldosClientes(cs[1..])
  }

  /** Each client's number of accounts, in list order. */
  function CantidadesCuentas(cs: seq<Cliente>): (r: seq<nat>)
    reads cs
    ensures |r| == |cs|
    ensures forall i :: 0 <= i < |cs| ==> r[i] == |cs[i].cuentas|
  {
    seq(|cs|, i reads cs requires 0 <= i < |cs| => |cs[i].cuentas|)
  }

  /** `flatMap(cliente -> cliente.getCuentas().stream())`: every account of
      every client, client by client: nothing else, none missing, and as many
      entries as the clients' account counts add up to. */
  function TodasLasCuentas(cs: seq<Cliente>): (r: seq<Cuenta>)
    reads cs
    ensures forall a :: a in r ==> a in Huella(cs)
    ensures forall i, a :: 0 <= i < |cs| && a in cs[i].cuentas ==> a in r
    ensures |r| == SumaNat(CantidadesCuentas(cs))
  {
    if cs == [] then []
    else
      assert CantidadesCuentas(cs)[1..] == CantidadesCuentas(cs[1..]);
      assert forall i :: 1 <= i < |cs| ==> cs[i] == cs[1..][i - 1];
      cs[0].cuentas + TodasLasCuentas(cs[1..])
  }

  /** Summing all accounts at once equals summing the clients' totals. */
  lemma {:induction false} CapitalPorClientes(cs: seq<Cliente>)
    ensures Suma(SaldosDe(TodasLasCuentas(cs))) == Suma(SaldosClientes(cs))
  {
    if cs != [] {
      CapitalPorClientes(cs[1..]);
      assert SaldosDe(TodasLasCuentas(cs)) == SaldosDe(cs[0].cuentas) + SaldosDe(TodasLasCuentas(cs[1..]));
      SumaConcat(SaldosDe(cs[0].cuentas), SaldosDe(TodasLasCuentas(cs[1..])));
      assert SaldosClientes(cs) == [SaldoTotalCliente(cs[0])] + SaldosClientes(cs[1..]);
      assert Suma(SaldosClientes(cs)) == SaldoTotalCliente(cs[0]) + Suma(SaldosClientes(cs[1..]));
    }
  }

  class ReporteServicio {
    const clientes: seq<Cliente>

    /** The constructor once its argument has been checked. */
    constructor (clientes: seq<Cliente>)
      ensures this.clientes == clientes
    {
      this.clientes := clientes;
    }

    /** `ReporteServicio(clientes)`: rejects a missing list; otherwise keeps
        its own copy, so later changes to the caller's list are not seen. */
    static method Crear(clientes: Option<seq<Cliente>>) returns (r: Result<ReporteServicio, Error>)
      ensures clientes.None? <==> r.Failure?
      ensures r.Failure? ==> r.error == ListaNula
      ensures r.Success? ==> fresh(r.value) && r.value.clientes == clientes.value
    {
      if clientes.None? {
        return Failure(ListaNula);
      }
      var servicio := new ReporteServicio(clientes.value);
      r := Success(servicio);
    }

    /** `obtenerClientesSaldoSuperior`: the clients whose total is strictly
        above `umbral`, in list order. */
    function ObtenerClientesSaldoSuperior(umbral: real): (r: seq<Cliente>)
      reads clientes, Huella(clientes)
      ensures |r| <= |clientes|
      ensures forall j :: 0 <= j < |r| ==> r[j] in clientes && r[j].CalcularSaldoTotal() > umbral
      ensures forall i :: 0 <= i < |clientes| && clientes[i].CalcularSaldoTotal() > umbral ==> clientes[i] in r
      ensures |r| == |Indices(SaldosClientes(clientes), SobreUmbral(umbral))|
      ensures forall j :: 0 <= j < |r| ==> r[j] == clientes[Indices(SaldosClientes(clientes), SobreUmbral(umbral))[j]]
    {
      var saldos := SaldosClientes(clientes);
      var r := Seleccionar(clientes, saldos, SobreUmbral(umbral));
      SeleccionarMiembros(clientes, saldos, SobreUmbral(umbral));
      r
    }

    /** `obtenerClientesSaldoInferior`: the clients whose total is strictly
        below `umbral`, in list order. */
    function ObtenerClientesSaldoInferior(umbral: real): (r: seq<Cliente>)
      reads clientes, Huella(clientes)
      ensures |r| <= |clientes|
      ensures forall j :: 0 <= j < |r| ==> r[j] in clientes && r[j].CalcularSaldoTotal() < umbral
      ensures forall i :: 0 <= i < |clientes| && clientes[i].CalcularSaldoTotal() < umbral ==> clientes[i] in r
      ensures |r| == |Indices(SaldosClientes(clientes), BajoUmbral(umbral))|
      ensures forall j :: 0 <= j < |r| ==> r[j] == clientes[Indices(SaldosClientes(clientes), BajoUmbral(umbral))[j]]
    {
      var saldos := SaldosClientes(clientes);
      var r := Seleccionar(clientes, saldos, BajoUmbral(umbral));
      SeleccionarMiembros(clientes, saldos, BajoUmbral(umbral));
      r
    }

    /** `calcularCapitalTotal`: the sum of every balance of every client's
        accounts, which is the sum of the clients' totals. */
    function CalcularCapitalTotal(): (r: real)
      reads clientes, Huella(clientes)
      ensures r == Suma(SaldosClientes(clientes))
      ensures clientes == [] ==> r == 0.0
    {
      CapitalPorClientes(clientes);
      Suma(SaldosDe(TodasLasCuentas(clientes)))
    }

    /** `identificarClientesSinCuentas`: the clients holding no account, in
        list order. */
    function IdentificarClientesSinCuentas(): (r: seq<Cliente>)
      reads clientes
      ensures |r| <= |clientes|
      ensures forall j :: 0 <= j < |r| ==> r[j] in clientes && r[j].cuentas == []
      ensures forall i :: 0 <= i < |clientes| && clientes[i].cuentas == [] ==> clientes[i] in r
      ensures |r| == |Indices(CantidadesCuentas(clientes), SinCuentas())|
      ensures forall j :: 0 <= j < |r| ==> r[j] == clientes[Indices(CantidadesCuentas(clientes), SinCuentas())[j]]
    {
      var cantidades := CantidadesCuentas(clientes);
      var r := Seleccionar(clientes, cantidades, SinCuentas());
      SeleccionarMiembros(clientes, cantidades, SinCuentas());
      r
    }

    /** `identificarClientesConMultiplesCuentas`: the clients holding more than
        one account, in list order; no client is in both account-count lists. */
    function IdentificarClientesConMultiplesCuentas(): (r: seq<Cliente>)
      reads clientes
      ensures |r| <= |clientes|
      ensures forall j :: 0 <= j < |r| ==> r[j] in clientes && |r[j].cuentas| > 1
      ensures forall i :: 0 <= i < |clientes| && |clientes[i].cuentas| > 1 ==> clientes[i] in r
      ensures forall j :: 0 <= j < |r| ==> r[j] !in IdentificarClientesSinCuentas()
      ensures |r| == |Indices(CantidadesCuentas(clientes), VariasCuentas())|
      ensures forall j :: 0 <= j < |r| ==> r[j] == clientes[Indices(CantidadesCuentas(clientes), VariasCuentas())[j]]
    {
      var cantidades := CantidadesCuentas(clientes);
      var r := Seleccionar(clientes, cantidades, VariasCuentas());
      SeleccionarMiembros(clientes, cantidades, VariasCuentas());
      r
    }

    /** `calcularSaldoPromedioPorCliente`: 0 for no clients, otherwise the
        average of the total capital over the clients, the value that times
        the number of clients gives the capital (`Promedio`, `PromedioUnico`). */
    function CalcularSaldoPromedioPorCliente(): (r: real)
      reads clientes, Huella(clientes)
      ensures clientes == [] ==> r == 0.0
      ensures clientes != [] ==> r == Promedio(CalcularCapitalTotal(), |clientes|)
    {
      if clientes == [] then 0.0 else Promedio(CalcularCapitalTotal(), |clientes|)
    }

    /** `generarReporteClientesPremium`: empty exactly when there are no
        clients; otherwise, with `u` the `k`-th largest total for
        `k = max(1, ceil(n / 5))`, exactly the clients whose total reaches `u`,
        each once and in list order: at least `k` of them, fewer than `k` strictly above `u`. */
    function GenerarReporteClientesPremium(): (r: seq<Cliente>)
      reads clientes, Huella(clientes)
      ensures r == [] <==> clientes == []
      ensures clientes != [] ==> |r| >= TopCount(|clientes|)
      ensures clientes != [] ==> SegmentoPremium(clientes, SaldosClientes(clientes), r)
    {
      var saldos := SaldosClientes(clientes);
      PremiumVacioSiiSinClientes(clientes, saldos);
      if clientes == [] then []
      else
        PremiumEsSegmento(clientes, saldos);
        Premium(clientes, saldos)
    }
  }

  /** `r` is the premium segment of the elements `xs` with balances `saldos`:
      with `u` the threshold, exactly the elements whose balance reaches `u`,
      each kept once and in list order (the `j`-th kept is the `j`-th element
      whose balance reaches `u`), and fewer than `k` balances strictly above
      `u`. */
  predicate SegmentoPremium<T(==)>(xs: seq<T>, saldos: seq<real>, r: seq<T>)
    requires |xs| == |saldos| > 0
  {
    var u := Umbral(saldos);
    && |r| == |Indices(saldos, AlMenos(u))|
    && (forall j :: 0 <= j < |r| ==> r[j] == xs[Indices(saldos, AlMenos(u))[j]])
    && (forall j :: 0 <= j < |r| ==> exists i :: 0 <= i < |xs| && r[j] == xs[i] && saldos[i] >= u)
    && (forall i :: 0 <= i < |xs| && saldos[i] >= u ==> xs[i] in r)
    && Contar(saldos, SobreUmbral(u)) < TopCount(|xs|)
  }

  /** Selecting the elements whose balance reaches `u` keeps exactly those. */
  lemma SeleccionUmbral<T>(xs: seq<T>, saldos: seq<real>, u: real)
    requires |xs| == |saldos|
    ensures forall j :: 0 <= j < |Seleccionar(xs, saldos, AlMenos(u))| ==>
              exists i :: 0 <= i < |xs| && Seleccionar(xs, saldos, AlMenos(u))[j] == xs[i] && saldos[i] >= u
    ensures forall i :: 0 <= i < |xs| && saldos[i] >= u ==> xs[i] in Seleccionar(xs, saldos, AlMenos(u))
  {
    SeleccionarMiembros(xs, saldos, AlMenos(u));
    var r, ix := Seleccionar(xs, saldos, AlMenos(u)), Indices(saldos, AlMenos(u));
    forall j | 0 <= j < |r| ensures exists i :: 0 <= i < |xs| && r[j] == xs[i] && saldos[i] >= u {
      var i := ix[j];
      assert r[j] == xs[i] && AlMenos(u)(saldos[i]);
    }
  }

  /** The premium selection is the premium segment, with at least `k`
      members. */
  lemma PremiumEsSegmento<T>(xs: seq<T>, saldos: seq<real>)
    requires |xs| == |saldos| > 0
    ensures |Premium(xs, saldos)| >= TopCount(|xs|)
    ensures SegmentoPremium(xs, saldos, Premium(xs, saldos))
  {
    var u := Umbral(saldos);
    var r := Premium(xs, saldos);
    assert r == Seleccionar(xs, saldos, AlMenos(u));
    assert |r| == |Indices(saldos, AlMenos(u))|;
    SeleccionUmbral(xs, saldos, u);
    PremiumAlMenosK(xs, saldos);
  }

  /** The average of `n > 0` values adding up to `total`: the value that,
      times `n`, gives back the total. */
  function Promedio(total: real, n: nat): (r: real)
    requires n > 0
    ensures r * (n as real) == total
  {
    total / (n as real)
  }

  /** The average is the only value that, times `n`, gives back the total. */
  lemma PromedioUnico(total: real, n: nat, r: real)
    requires n > 0
    ensures r * (n as real) == total <==> r == Promedio(total, n)
  {
    var m := n as real;
    if r * m == total {
      assert (r - Promedio(total, n)) * m == 0.0;
    }
  }
}
