// A person: contact data plus the one strategy currently in force.
module Personas {
  import opened Regalos
  import opened Criterios

  class Persona {
    /** Replaceable at run time, for instance by an observer. */
    var criterioDelRegalo: Criterio
    var email: string
    var direccion: string
    var nombre: string
    var dni: string

    /** Contact fields start as a single blank, as in Kotlin's `Persona`. */
    constructor (criterio: Criterio)
      ensures criterioDelRegalo == criterio
      ensures email == " " && direccion == " " && nombre == " " && dni == " "
    {
      criterioDelRegalo := criterio;
      email := " ";
      direccion := " ";
      nombre := " ";
      dni := " ";
    }

    /** A person likes what the strategy in force likes. */
    predicate LeGustaRegalo(r: Regalo)
      reads this
    {
      Gusta(criterioDelRegalo, r)
    }
  }
}
