// Preference strategies: whether a person likes a gift.
module Criterios {
  import opened Regalos

  /** The closed set of strategies. A Combineta is a composite of child
      strategies. */
  datatype Criterio =
    | Conformista
    | Interesado(ciertaCantidadDePlata: real)
    | Exigente
    | Marquera(marcaRecibida: string)
    | Combineta(criteriosEleccionRegalo: seq<Criterio>)

  /** Whether strategy `c` likes gift `r`. */
  predicate Gusta(c: Criterio, r: Regalo)
    decreases c
  {
    match c
    case Conformista => true
    case Interesado(plata) => r.costoDelRegalo > plata
    case Exigente => r.EsRegaloValioso()
    case Marquera(marcaRecibida) => r.marca == marcaRecibida
    case Combineta(criterios) => AlgunoGusta(criterios, r)
  }

  /** Whether some strategy of `criterios` likes `r`, trying them left to right. */
  predicate AlgunoGusta(criterios: seq<Criterio>, r: Regalo)
    decreases criterios
  {
    criterios != [] && (Gusta(criterios[0], r) || AlgunoGusta(criterios[1..], r))
  }

  /** A composite likes a gift exactly when one of its children does. */
  lemma {:induction false} AlgunoGustaSiAlgunHijoGusta(criterios: seq<Criterio>, r: Regalo)
    ensures AlgunoGusta(criterios, r) <==>
            exists i :: 0 <= i < |criterios| && Gusta(criterios[i], r)
  {
    if criterios != [] {
      AlgunoGustaSiAlgunHijoGusta(criterios[1..], r);
      if AlgunoGusta(criterios[1..], r) && !Gusta(criterios[0], r) {
        var j :| 0 <= j < |criterios[1..]| && Gusta(criterios[1..][j], r);
        assert Gusta(criterios[j + 1], r);
      }
      if exists i :: 0 <= i < |criterios| && Gusta(criterios[i], r) {
        var i :| 0 <= i < |criterios| && Gusta(criterios[i], r);
        if i > 0 {
          assert Gusta(criterios[1..][i - 1], r);
        }
      }
    }
  }

  /** The composite rule, stated on the strategy itself; in particular a
      Combineta without children likes nothing. */
  lemma CombinetaGustaSiAlgunHijoGusta(criterios: seq<Criterio>, r: Regalo)
    ensures Gusta(Combineta(criterios), r) <==>
            exists i :: 0 <= i < |criterios| && Gusta(criterios[i], r)
    ensures criterios == [] ==> !Gusta(Combineta(criterios), r)
  {
    AlgunoGustaSiAlgunHijoGusta(criterios, r);
  }

  /** The four leaf strategies. */
  lemma GustosDeLosCriteriosSimples(r: Regalo, plata: real, marcaRecibida: string)
    ensures Gusta(Conformista, r)
    ensures Gusta(Interesado(plata), r) <==> r.costoDelRegalo > plata
    ensures Gusta(Exigente, r) <==> r.EsRegaloValioso()
    ensures Gusta(Marquera(marcaRecibida), r) <==> r.marca == marcaRecibida
  {
  }

  /** A brand-loyal person judges on the brand alone, whatever the cost. */
  lemma MarqueraIgnoraElCosto(marcaRecibida: string, r1: Regalo, r2: Regalo)
    requires r1.marca == r2.marca
    ensures Gusta(Marquera(marcaRecibida), r1) == Gusta(Marquera(marcaRecibida), r2)
  {
  }

  /** Whatever an Exigente likes, an Interesado with the valuable threshold
      likes too, and nobody Exigente ever likes a voucher. */
  lemma ExigenteEsMasEstrictoQueInteresado(r: Regalo)
    ensures Gusta(Exigente, r) ==> Gusta(Interesado(PrecioDeRegaloValioso), r)
    ensures r.tipo.Voucher? ==> !Gusta(Exigente, r)
  {
  }
}
