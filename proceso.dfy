// The delivery process: stock, observers and the log of deliveries, with
// selection, bookkeeping and notification.
module Procesos {
  import opened Regalos
  import opened Criterios
  import opened Personas
  import opened Salidas
  import opened Observadores

  /** One entry of the delivery log: who received which gift object. */
  datatype RegaloEntregadoYRegistrado = RegaloEntregadoYRegistrado(persona: Persona, regalo: Regalo)

  const CostoDelVoucher: real := 2000.0
  const MarcaDelVoucher: string := "Papapp"

  /** `s` without its first occurrence of `x`; `s` itself when `x` is absent. */
  function QuitarPrimero<T(==)>(s: seq<T>, x: T): (t: seq<T>)
    ensures x !in s ==> t == s
    ensures x in s ==> |t| == |s| - 1
    ensures multiset(t) == multiset(s) - multiset{x}
  {
    if s == [] then []
    else if s[0] == x then
      assert s == [s[0]] + s[1..];
      s[1..]
    else
      assert s == [s[0]] + s[1..];
      [s[0]] + QuitarPrimero(s[1..], x)
  }

  /** Removal takes out exactly the first occurrence and keeps the order of
      everything else. */
  lemma {:induction false} QuitarPrimeroQuitaLaPrimeraAparicion<T>(s: seq<T>, x: T, k: nat)
    requires k < |s| && s[k] == x && x !in s[..k]
    ensures QuitarPrimero(s, x) == s[..k] + s[k + 1..]
  {
    if k > 0 {
      assert s[0] != x by { assert s[..k][0] == s[0]; }
      assert s[1..][..k - 1] == s[..k][1..];
      QuitarPrimeroQuitaLaPrimeraAparicion(s[1..], x, k - 1);
      assert s[..k] == [s[0]] + s[1..][..k - 1];
      assert s[k + 1..] == s[1..][k..];
    }
  }

  /** Some gift of `stock` is liked under strategy `c`. */
  predicate HayRegaloGustado(stock: seq<Regalo>, c: Criterio) {
    exists i :: 0 <= i < |stock| && Gusta(c, stock[i])
  }

  /** The position of the first gift of `stock` liked under `c`. */
  function PrimerIndiceGustado(stock: seq<Regalo>, c: Criterio): (k: nat)
    requires HayRegaloGustado(stock, c)
    ensures k < |stock| && Gusta(c, stock[k])
    ensures forall j :: 0 <= j < k ==> !Gusta(c, stock[j])
  {
    if Gusta(c, stock[0]) then 0
    else
      assert HayRegaloGustado(stock[1..], c) by {
        var i :| 0 <= i < |stock| && Gusta(c, stock[i]);
        assert stock[1..][i - 1] == stock[i];
      }
      var k := PrimerIndiceGustado(stock[1..], c);
      assert forall j :: 1 <= j < k + 1 ==> stock[j] == stock[1..][j - 1];
      k + 1
  }

  /** The single process instance of a run. */
  class Proceso {
    var regalosEnStock: seq<Regalo>
    var regalosRealizadosObservers: seq<Observer>
    var regalosEntregados: seq<RegaloEntregadoYRegistrado>
    /** Ghost log of the observer notifications made by this process. */
    const bitacora: BitacoraDeAvisos

    constructor ()
      ensures regalosEnStock == [] && regalosRealizadosObservers == [] && regalosEntregados == []
      ensures fresh(bitacora) && bitacora.avisos == []
    {
      bitacora := new BitacoraDeAvisos();
      regalosEnStock := [];
      regalosRealizadosObservers := [];
      regalosEntregados := [];
    }

    /** Whether some stocked gift is liked by `persona`. */
    method ExisteRegaloAdecuadoParaLaPersona(persona: Persona) returns (existe: bool)
      ensures existe <==> HayRegaloGustado(regalosEnStock, persona.criterioDelRegalo)
    {
      existe := false;
      var i := 0;
      while i < |regalosEnStock| && !existe
        invariant 0 <= i <= |regalosEnStock|
        invariant !existe ==> forall j :: 0 <= j < i ==> !persona.LeGustaRegalo(regalosEnStock[j])
        invariant existe ==> 0 < i && persona.LeGustaRegalo(regalosEnStock[i - 1])
      {
        existe := persona.LeGustaRegalo(regalosEnStock[i]);
        i := i + 1;
      }
    }

    /** The first stocked gift `persona` likes; callers must know one exists. */
    method RegaloAdecuadoParaLaPersona(persona: Persona) returns (regalo: Regalo)
      requires HayRegaloGustado(regalosEnStock, persona.criterioDelRegalo)
      ensures regalo == regalosEnStock[PrimerIndiceGustado(regalosEnStock, persona.criterioDelRegalo)]
    {
      var i := 0;
      while !persona.LeGustaRegalo(regalosEnStock[i])
        invariant 0 <= i < |regalosEnStock|
        invariant forall j :: 0 <= j < i ==> !persona.LeGustaRegalo(regalosEnStock[j])
        invariant exists k :: i <= k < |regalosEnStock| && persona.LeGustaRegalo(regalosEnStock[k])
        decreases |regalosEnStock| - i
      {
        i := i + 1;
      }
      regalo := regalosEnStock[i];
      PrimerGustadoEsUnico(regalosEnStock, persona.criterioDelRegalo, i);
    }

    /** The first liked stocked gift, or else a new voucher that is not in stock. */
    method RegaloAdecuadoParaLaPersonaOVaucher(persona: Persona) returns (regalo: Regalo)
      ensures HayRegaloGustado(regalosEnStock, persona.criterioDelRegalo) ==>
                regalo == regalosEnStock[PrimerIndiceGustado(regalosEnStock, persona.criterioDelRegalo)]
      ensures !HayRegaloGustado(regalosEnStock, persona.criterioDelRegalo) ==>
                fresh(regalo) && regalo !in regalosEnStock && regalo.tipo == Voucher &&
                regalo.costoDelRegalo == 2000.0 && regalo.marca == "Papapp" && regalo.id == 0
    {
      var existe := ExisteRegaloAdecuadoParaLaPersona(persona);
      if existe {
        regalo := RegaloAdecuadoParaLaPersona(persona);
      } else {
        regalo := new Regalo(CostoDelVoucher, MarcaDelVoucher, Voucher);
      }
    }

    method AgregarRegaloEnStock(regalo: Regalo)
      modifies this
      ensures regalosEnStock == old(regalosEnStock) + [regalo]
      ensures regalosRealizadosObservers == old(regalosRealizadosObservers)
      ensures regalosEntregados == old(regalosEntregados)
    {
      regalosEnStock := regalosEnStock + [regalo];
    }

    method AgregarObserver(nuevoObserver: Observer)
      modifies this
      ensures regalosRealizadosObservers == old(regalosRealizadosObservers) + [nuevoObserver]
      ensures regalosEnStock == old(regalosEnStock)
      ensures regalosEntregados == old(regalosEntregados)
    {
      regalosRealizadosObservers := regalosRealizadosObservers + [nuevoObserver];
    }

    /** Log that `persona` received `regalo` and take that gift object out of
        stock if it is there. */
    method EntregaDeRegalo(persona: Persona, regalo: Regalo)
      modifies this
      ensures regalosEntregados == old(regalosEntregados) + [RegaloEntregadoYRegistrado(persona, regalo)]
      ensures regalosEnStock == QuitarPrimero(old(regalosEnStock), regalo)
      ensures regalosRealizadosObservers == old(regalosRealizadosObservers)
    {
      regalosEntregados := regalosEntregados + [RegaloEntregadoYRegistrado(persona, regalo)];
      regalosEnStock := QuitarPrimero(regalosEnStock, regalo);
    }

    /** Select a gift for `persona`, record its delivery, then tell every
        observer, first registered first. The ghost result names the gift
        that was selected; Kotlin's `realizarRegalo` returns nothing. */
    method RealizarRegalo(persona: Persona) returns (ghost entregado: Regalo)
      modifies this, persona, MailSenders(regalosRealizadosObservers), Fletes(regalosRealizadosObservers), bitacora
      ensures regalosEntregados == old(regalosEntregados) + [RegaloEntregadoYRegistrado(persona, entregado)]
      ensures HayRegaloGustado(old(regalosEnStock), old(persona.criterioDelRegalo)) ==>
                var k := PrimerIndiceGustado(old(regalosEnStock), old(persona.criterioDelRegalo));
                && entregado == old(regalosEnStock)[k]
                && regalosEnStock == old(regalosEnStock)[..k] + old(regalosEnStock)[k + 1..]
      ensures !HayRegaloGustado(old(regalosEnStock), old(persona.criterioDelRegalo)) ==>
                && fresh(entregado) && entregado.tipo == Voucher
                && entregado.costoDelRegalo == 2000.0 && entregado.marca == "Papapp" && entregado.id == 0
                && regalosEnStock == old(regalosEnStock)
      ensures regalosEnStock == QuitarPrimero(old(regalosEnStock), entregado)
      ensures regalosRealizadosObservers == old(regalosRealizadosObservers)
      ensures bitacora.avisos == old(bitacora.avisos) + AvisosEnOrden(regalosRealizadosObservers, persona, entregado)
      ensures persona.criterioDelRegalo ==
                CriterioTras(regalosRealizadosObservers, entregado, old(persona.criterioDelRegalo))
      ensures persona.email == old(persona.email) && persona.direccion == old(persona.direccion)
      ensures persona.nombre == old(persona.nombre) && persona.dni == old(persona.dni)
      ensures forall s :: s in old(MailSenders(regalosRealizadosObservers)) ==>
                s.enviados == old(s.enviados) + MailsEnviadosA(regalosRealizadosObservers, s, MailDeRegaloEnviado(persona))
      ensures forall f :: f in old(Fletes(regalosRealizadosObservers)) ==>
                f.informes == old(f.informes) +
                  InformesEnviadosA(regalosRealizadosObservers, f, InformeDeEntrega(persona, entregado))
    {
      ghost var stock, criterio := regalosEnStock, persona.criterioDelRegalo;
      ghost var hay := HayRegaloGustado(stock, criterio);
      ghost var resto := if hay then
                           var k := PrimerIndiceGustado(stock, criterio); stock[..k] + stock[k + 1..]
                         else stock;
      var regaloAdecuado := RegaloAdecuadoParaLaPersonaOVaucher(persona);
      StockTrasLaEntrega(stock, criterio, regaloAdecuado);
      EntregaDeRegalo(persona, regaloAdecuado);
      assert regalosEnStock == resto;
      NotificarObservers(regalosRealizadosObservers, persona, regaloAdecuado, bitacora);
      entregado := regaloAdecuado;
    }
  }

  /** Delivering the selected gift takes it out at its own position; the
      fallback gift, not being in stock, leaves the stock as it was. */
  lemma StockTrasLaEntrega(stock: seq<Regalo>, c: Criterio, regalo: Regalo)
    requires HayRegaloGustado(stock, c) ==> regalo == stock[PrimerIndiceGustado(stock, c)]
    requires !HayRegaloGustado(stock, c) ==> regalo !in stock
    ensures HayRegaloGustado(stock, c) ==>
              var k := PrimerIndiceGustado(stock, c);
              QuitarPrimero(stock, regalo) == stock[..k] + stock[k + 1..]
    ensures !HayRegaloGustado(stock, c) ==> QuitarPrimero(stock, regalo) == stock
  {
    if HayRegaloGustado(stock, c) {
      var k := PrimerIndiceGustado(stock, c);
      assert regalo !in stock[..k];
      QuitarPrimeroQuitaLaPrimeraAparicion(stock, regalo, k);
    }
  }

  /** A liked gift with no liked gift before it is the first liked gift. */
  lemma PrimerGustadoEsUnico(stock: seq<Regalo>, c: Criterio, k: nat)
    requires k < |stock| && Gusta(c, stock[k])
    requires forall j :: 0 <= j < k ==> !Gusta(c, stock[j])
    ensures HayRegaloGustado(stock, c) && PrimerIndiceGustado(stock, c) == k
  {
    var m := PrimerIndiceGustado(stock, c);
    assert !(m < k) && !(k < m);
  }

  /** Only the first occurrence goes: a gift object stocked twice is still in
      stock after one of its deliveries. */
  lemma QuitarPrimeroDejaLasDemasApariciones<T>(s: seq<T>, x: T)
    requires multiset(s)[x] >= 2
    ensures x in QuitarPrimero(s, x)
  {
    assert multiset(QuitarPrimero(s, x))[x] >= 1;
  }
}
