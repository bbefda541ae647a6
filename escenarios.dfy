// Client code: concrete deliveries whose outcome follows from the
// contracts of the process alone.
module Escenarios {
  import opened Regalos
  import opened Criterios
  import opened Personas
  import opened Salidas
  import opened Observadores
  import opened Procesos

  /** A demanding person gets the one valuable perfume in stock. */
  method PerfumeExtranjeroParaUnaExigente() {
    var proceso := new Proceso();
    var perfume := new Regalo(6000.0, "X", Perfume(Extranjero));
    proceso.AgregarRegaloEnStock(perfume);
    var persona := new Persona(Exigente);
    assert Gusta(Exigente, proceso.regalosEnStock[0]);
    ghost var entregado := proceso.RealizarRegalo(persona);
    assert proceso.regalosEntregados == [RegaloEntregadoYRegistrado(persona, perfume)];
    assert proceso.regalosEnStock == [];
  }

  /** With nothing in stock, even an unconditional person gets the voucher,
      and the stock stays empty. */
  method VoucherCuandoNoHayStock() {
    var proceso := new Proceso();
    var persona := new Persona(Conformista);
    ghost var entregado := proceso.RealizarRegalo(persona);

    assert entregado.tipo == Voucher && entregado.costoDelRegalo == 2000.0 && entregado.marca == "Papapp";
    assert proceso.regalosEnStock == [];
  }

  /** The brand alone decides for a brand-loyal person, however cheap the gift. */
  method MarqueraEligeRopaBarata() {
    var proceso := new Proceso();
    var remera := new Regalo(100.0, "Jordache", Ropa);
    proceso.AgregarRegaloEnStock(remera);
    var persona := new Persona(Marquera("Jordache"));
    assert persona.LeGustaRegalo(proceso.regalosEnStock[0]);
    PrimerGustadoEsUnico(proceso.regalosEnStock, persona.criterioDelRegalo, 0);
    var elegido := proceso.RegaloAdecuadoParaLaPersona(persona);
    assert elegido == remera;
  }

  /** An expensive delivery makes the escalator replace the strategy. */
  method EntregaCaraCambiaElCriterio() {
    var proceso := new Proceso();
    proceso.AgregarObserver(ModificarCriterioPorDefecto);
    var campera := new Regalo(20000.0, "Motor Oil", Ropa);
    proceso.AgregarRegaloEnStock(campera);
    var persona := new Persona(Conformista);
    PrimerGustadoEsUnico(proceso.regalosEnStock, Conformista, 0);
    ghost var entregado := proceso.RealizarRegalo(persona);
    assert entregado == campera;
    assert proceso.regalosRealizadosObservers == [ModificarCriterioPorDefecto];
    EscaladoPorDefecto([ModificarCriterioPorDefecto], campera, Conformista);
    assert persona.criterioDelRegalo == Interesado(5000.0);
  }

  /** The mail observer sends one mail, to the person's address. */
  method EntregaAvisadaPorMail() {
    var proceso := new Proceso();
    var sender := new MailSender();
    proceso.AgregarObserver(MailObserver(sender));
    var persona := new Persona(Conformista);
    persona.email := "ana@mail.com";
    ghost var entregado := proceso.RealizarRegalo(persona);
    assert sender in MailSenders(proceso.regalosRealizadosObservers);
    MailsEnviadosSonUnoPorObserver(proceso.regalosRealizadosObservers, sender, MailDeRegaloEnviado(persona));
    assert |sender.enviados| == 1 && sender.enviados[0].to == "ana@mail.com";
  }
}
