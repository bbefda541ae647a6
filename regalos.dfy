// Gifts: a class per gift object (the process removes stocked gifts by
// reference) whose variant-specific data is a closed datatype.
module Regalos {

  /** Origin of a perfume (in Kotlin it defaults to national; here it is
      given at construction). */
  datatype Origen = Nacional | Extranjero

  /** An ISO day of the week: 1 is Monday, 7 is Sunday. */
  type DiaDeLaSemana = d: int | 1 <= d <= 7 witness 1

  /** The closed set of gift variants, each with the data its feature needs.
      The release year of a toy and the ISO weekday (1 = Monday .. 7 = Sunday)
      of an experience are stored values instead of dates. */
  datatype TipoDeRegalo =
    | Ropa
    | Jueguete(anioDeLanzamiento: int)
    | Perfume(origen: Origen)
    | Experiencia(diaDeLaSemana: DiaDeLaSemana)
    | Voucher

  /** A gift is valuable only when it costs strictly more than this. */
  const PrecioDeRegaloValioso: real := 5000.0

  /** Clothing brands whose garments have the special feature. */
  const MarcasChetas: seq<string> := ["Jordache", "Lee", "Charro", "Motor Oil"]

  /** A toy has the special feature when released before this year. */
  const AnioLimiteDeJuguete: int := 2000

  /** An experience has the special feature when it falls on a Friday. */
  const DiaViernes: int := 5

  class Regalo {
    const costoDelRegalo: real
    const marca: string
    const tipo: TipoDeRegalo
    /** Identifier reported to the shipping service; 0 until a client sets it. */
    var id: int

    constructor (costoDelRegalo: real, marca: string, tipo: TipoDeRegalo)
      ensures this.costoDelRegalo == costoDelRegalo
      ensures this.marca == marca
      ensures this.tipo == tipo
      ensures id == 0
    {
      this.costoDelRegalo := costoDelRegalo;
      this.marca := marca;
      this.tipo := tipo;
      id := 0;
    }

    /** The price half of the valuable rule. */
    predicate CondicionDePrecioDeRegaloValioso() {
      costoDelRegalo > PrecioDeRegaloValioso
    }

    /** The variant-specific half of the valuable rule. */
    predicate CaracteristicaEspecificaDelRegalo() {
      match tipo
      case Ropa => marca in MarcasChetas
      case Jueguete(anio) => anio < AnioLimiteDeJuguete
      case Perfume(origen) => origen == Extranjero
      case Experiencia(dia) => dia == DiaViernes
      case Voucher => false
    }

    /** Template method: valuable means the price condition and the
        variant's own feature both hold. */
    predicate EsRegaloValioso(): (valioso: bool)
      ensures valioso ==> costoDelRegalo > PrecioDeRegaloValioso
      ensures tipo.Voucher? ==> !valioso
    {
      CondicionDePrecioDeRegaloValioso() && CaracteristicaEspecificaDelRegalo()
    }
  }

  /** The valuable rule spelled out per variant. */
  lemma ReglaDeRegaloValioso(r: Regalo)
    ensures r.tipo.Ropa? ==>
      (r.EsRegaloValioso() <==>
        r.costoDelRegalo > 5000.0 &&
        (r.marca == "Jordache" || r.marca == "Lee" || r.marca == "Charro" || r.marca == "Motor Oil"))
    ensures r.tipo.Jueguete? ==>
      (r.EsRegaloValioso() <==> r.costoDelRegalo > 5000.0 && r.tipo.anioDeLanzamiento < 2000)
    ensures r.tipo.Perfume? ==>
      (r.EsRegaloValioso() <==> r.costoDelRegalo > 5000.0 && r.tipo.origen == Extranjero)
    ensures r.tipo.Experiencia? ==>
      (r.EsRegaloValioso() <==> r.costoDelRegalo > 5000.0 && r.tipo.diaDeLaSemana == 5)
    ensures r.tipo.Voucher? ==> !r.EsRegaloValioso()
  {
  }
}
