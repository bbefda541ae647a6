// Observers of a completed delivery, and the combined effect of notifying
// a list of them in order.
module Observadores {
  import opened Regalos
  import opened Criterios
  import opened Personas
  import opened Salidas

  /** The closed set of delivery observers. The two notifiers carry the
      collaborator injected into them; the escalator carries its two
      amounts. */
  datatype Observer =
    | MailObserver(mailSender: MailSender)
    | AvisarAlFlete(flete: Flete)
    | ModificarCriterioDePersonaInteresada(montoMaximoDelRegalo: real, nuevoMontoMaximo: real)

  /** One call of an observer's notification: which observer was told
      that which person received which gift object. */
  datatype Aviso = Aviso(observer: Observer, persona: Persona, regalo: Regalo)

  /** Ghost log of every observer notification, in the order the calls
      happen; it lets contracts state the order of calls to observers
      whose effects land on different collaborators. */
  class BitacoraDeAvisos {
    ghost var avisos: seq<Aviso>

    constructor ()
      ensures avisos == []
    {
      avisos := [];
    }
  }

  /** The escalator as constructed without arguments. */
  const ModificarCriterioPorDefecto: Observer := ModificarCriterioDePersonaInteresada(10000.0, 5000.0)

  const RemitenteDeNavidad: string := "jojojo@mail.com"
  const AsuntoDeNavidad: string := "Regalo de navidad enviado"
  const PrefijoDelContenido: string := "Se ha enviado un regalo para "

  /** The message the mail observer sends about person `p`. */
  function MailDeRegaloEnviado(p: Persona): (m: Mail)
    reads p
    ensures m.to == p.email && m.from == "jojojo@mail.com"
    ensures m.subject == "Regalo de navidad enviado"
    ensures |p.nombre| <= |m.content| && m.content[|m.content| - |p.nombre|..] == p.nombre
  {
    Mail(p.email, RemitenteDeNavidad, AsuntoDeNavidad, PrefijoDelContenido + p.nombre)
  }

  /** The report the shipping observer sends about `p` receiving `r`. */
  function InformeDeEntrega(p: Persona, r: Regalo): (i: Informe)
    reads p, r
    ensures i.direccionCliente == p.direccion && i.nombreCliente == p.nombre
    ensures i.dniCliente == p.dni && i.codigoRegalo == r.id
  {
    Informe(p.direccion, p.nombre, p.dni, r.id)
  }

  /** Whether observer `o` replaces the strategy of whoever receives `r`. */
  predicate Dispara(o: Observer, r: Regalo) {
    o.ModificarCriterioDePersonaInteresada? && r.costoDelRegalo > o.montoMaximoDelRegalo
  }

  /** The objects observer `o` may change when told about person `p`. */
  function Alcance(o: Observer, p: Persona): set<object> {
    match o
    case MailObserver(s) => {s}
    case AvisarAlFlete(f) => {f}
    case ModificarCriterioDePersonaInteresada(_, _) => {p}
  }

  /** One observer told that `p` received `r`; the call is logged in
      `bitacora`. */
  method RegaloEntregado(o: Observer, p: Persona, r: Regalo, bitacora: BitacoraDeAvisos)
    modifies Alcance(o, p), bitacora
    ensures bitacora.avisos == old(bitacora.avisos) + [Aviso(o, p, r)]
    ensures p.criterioDelRegalo ==
              if Dispara(o, r) then Interesado(o.nuevoMontoMaximo) else old(p.criterioDelRegalo)
    ensures p.email == old(p.email) && p.direccion == old(p.direccion)
    ensures p.nombre == old(p.nombre) && p.dni == old(p.dni)
    ensures o.MailObserver? ==>
              o.mailSender.enviados == old(o.mailSender.enviados) + [MailDeRegaloEnviado(p)]
    ensures o.AvisarAlFlete? ==>
              o.flete.informes == old(o.flete.informes) + [InformeDeEntrega(p, r)]
  {
    bitacora.avisos := bitacora.avisos + [Aviso(o, p, r)];
    match o
    case MailObserver(s) =>
      s.SendMail(MailDeRegaloEnviado(p));
    case AvisarAlFlete(f) =>
      f.InformarElRegalo(InformeDeEntrega(p, r));
    case ModificarCriterioDePersonaInteresada(montoMaximo, nuevoMonto) =>
      if r.costoDelRegalo > montoMaximo {
        p.criterioDelRegalo := Interesado(nuevoMonto);
      }
  }

  // ---- The effect of a whole list of observers, notified first to last ----

  /** The strategy a person holds after `obs` were told, in order, that the
      person received `r`, starting from `c`. */
  function CriterioTras(obs: seq<Observer>, r: Regalo, c: Criterio): Criterio
    decreases |obs|
  {
    if obs == [] then c
    else
      var ultimo := obs[|obs| - 1];
      if Dispara(ultimo, r) then Interesado(ultimo.nuevoMontoMaximo)
      else CriterioTras(obs[..|obs| - 1], r, c)
  }

  /** The log entries of telling `obs`, first to last, that `p` received `r`. */
  function AvisosEnOrden(obs: seq<Observer>, p: Persona, r: Regalo): (avisos: seq<Aviso>)
    ensures |avisos| == |obs|
    ensures forall i :: 0 <= i < |obs| ==> avisos[i] == Aviso(obs[i], p, r)
    decreases |obs|
  {
    if obs == [] then []
    else AvisosEnOrden(obs[..|obs| - 1], p, r) + [Aviso(obs[|obs| - 1], p, r)]
  }

  /** The mails that `obs`, notified in order, hand to sender `s` when each
      mail observer sends `aviso`. */
  function MailsEnviadosA(obs: seq<Observer>, s: MailSender, aviso: Mail): seq<Mail>
    decreases |obs|
  {
    if obs == [] then []
    else
      MailsEnviadosA(obs[..|obs| - 1], s, aviso) +
      (if obs[|obs| - 1] == MailObserver(s) then [aviso] else [])
  }

  /** The reports that `obs`, notified in order, hand to service `f` when
      each shipping observer sends `informe`. */
  function InformesEnviadosA(obs: seq<Observer>, f: Flete, informe: Informe): seq<Informe>
    decreases |obs|
  {
    if obs == [] then []
    else
      InformesEnviadosA(obs[..|obs| - 1], f, informe) +
      (if obs[|obs| - 1] == AvisarAlFlete(f) then [informe] else [])
  }

  /** The mail senders injected into observers of `obs`. */
  function MailSenders(obs: seq<Observer>): set<MailSender> {
    set i | 0 <= i < |obs| && obs[i].MailObserver? :: obs[i].mailSender
  }

  /** The shipping services injected into observers of `obs`. */
  function Fletes(obs: seq<Observer>): set<Flete> {
    set i | 0 <= i < |obs| && obs[i].AvisarAlFlete? :: obs[i].flete
  }

  /** Tell every observer of `obs`, first to last, that `p` received `r`. */
  method NotificarObservers(obs: seq<Observer>, p: Persona, r: Regalo, bitacora: BitacoraDeAvisos)
    modifies p, MailSenders(obs), Fletes(obs), bitacora
    ensures bitacora.avisos == old(bitacora.avisos) + AvisosEnOrden(obs, p, r)
    ensures p.criterioDelRegalo == CriterioTras(obs, r, old(p.criterioDelRegalo))
    ensures p.email == old(p.email) && p.direccion == old(p.direccion)
    ensures p.nombre == old(p.nombre) && p.dni == old(p.dni)
    ensures forall s :: s in MailSenders(obs) ==> s.enviados == old(s.enviados) + MailsEnviadosA(obs, s, MailDeRegaloEnviado(p))
    ensures forall f :: f in Fletes(obs) ==> f.informes == old(f.informes) + InformesEnviadosA(obs, f, InformeDeEntrega(p, r))
  {
    ghost var aviso, informe := MailDeRegaloEnviado(p), InformeDeEntrega(p, r);
    var i := 0;
    while i < |obs|
      invariant 0 <= i <= |obs|
      invariant bitacora.avisos == old(bitacora.avisos) + AvisosEnOrden(obs[..i], p, r)
      invariant p.criterioDelRegalo == CriterioTras(obs[..i], r, old(p.criterioDelRegalo))
      invariant p.email == old(p.email) && p.direccion == old(p.direccion)
      invariant p.nombre == old(p.nombre) && p.dni == old(p.dni)
      invariant aviso == MailDeRegaloEnviado(p) && informe == InformeDeEntrega(p, r)
      invariant forall s :: s in MailSenders(obs) ==> s.enviados == old(s.enviados) + MailsEnviadosA(obs[..i], s, aviso)
      invariant forall f :: f in Fletes(obs) ==> f.informes == old(f.informes) + InformesEnviadosA(obs[..i], f, informe)
    {
      NotificarAlSiguiente(obs, i, p, r, aviso, informe, bitacora);
      assert obs[..i + 1][..i] == obs[..i];
      assert AvisosEnOrden(obs[..i + 1], p, r) == AvisosEnOrden(obs[..i], p, r) + [Aviso(obs[i], p, r)];
      forall s | s in MailSenders(obs)
        ensures s.enviados == old(s.enviados) + MailsEnviadosA(obs[..i + 1], s, aviso)
      {
        MailsEnviadosAlNotificarUnoMas(obs, i, s, aviso);
      }
      forall f | f in Fletes(obs)
        ensures f.informes == old(f.informes) + InformesEnviadosA(obs[..i + 1], f, informe)
      {
        InformesEnviadosAlNotificarUnoMas(obs, i, f, informe);
      }
      i := i + 1;
    }
    assert obs[..i] == obs;
  }

  /** Observer `obs[i]` told that `p` received `r`, stated for every
      collaborator and the person reachable from `obs`. */
  method NotificarAlSiguiente(obs: seq<Observer>, i: nat, p: Persona, r: Regalo,
                              ghost aviso: Mail, ghost informe: Informe, bitacora: BitacoraDeAvisos)
    requires i < |obs|
    requires aviso == MailDeRegaloEnviado(p) && informe == InformeDeEntrega(p, r)
    modifies p, MailSenders(obs), Fletes(obs), bitacora
    ensures bitacora.avisos == old(bitacora.avisos) + [Aviso(obs[i], p, r)]
    ensures p.criterioDelRegalo ==
              if Dispara(obs[i], r) then Interesado(obs[i].nuevoMontoMaximo) else old(p.criterioDelRegalo)
    ensures p.email == old(p.email) && p.direccion == old(p.direccion)
    ensures p.nombre == old(p.nombre) && p.dni == old(p.dni)
    ensures forall s :: s in MailSenders(obs) ==>
              s.enviados == old(s.enviados) + (if obs[i] == MailObserver(s) then [aviso] else [])
    ensures forall f :: f in Fletes(obs) ==>
              f.informes == old(f.informes) + (if obs[i] == AvisarAlFlete(f) then [informe] else [])
  {
    if obs[i].MailObserver? {
      assert obs[i].mailSender in MailSenders(obs);
    } else if obs[i].AvisarAlFlete? {
      assert obs[i].flete in Fletes(obs);
    }
    RegaloEntregado(obs[i], p, r, bitacora);
  }

  lemma MailsEnviadosAlNotificarUnoMas(obs: seq<Observer>, i: nat, s: MailSender, aviso: Mail)
    requires i < |obs|
    ensures MailsEnviadosA(obs[..i + 1], s, aviso) ==
            MailsEnviadosA(obs[..i], s, aviso) + (if obs[i] == MailObserver(s) then [aviso] else [])
  {
    assert obs[..i + 1][..i] == obs[..i];
  }

  lemma InformesEnviadosAlNotificarUnoMas(obs: seq<Observer>, i: nat, f: Flete, informe: Informe)
    requires i < |obs|
    ensures InformesEnviadosA(obs[..i + 1], f, informe) ==
            InformesEnviadosA(obs[..i], f, informe) + (if obs[i] == AvisarAlFlete(f) then [informe] else [])
  {
    assert obs[..i + 1][..i] == obs[..i];
  }

  // ---- What the combined effect amounts to ----

  /** If no observer of `obs` fires for `r`, the strategy is kept. */
  lemma {:induction false} CriterioTrasSinDisparo(obs: seq<Observer>, r: Regalo, c: Criterio)
    requires forall i :: 0 <= i < |obs| ==> !Dispara(obs[i], r)
    ensures CriterioTras(obs, r, c) == c
  {
    if obs != [] {
      CriterioTrasSinDisparo(obs[..|obs| - 1], r, c);
    }
  }

  /** Otherwise the last escalator that fires decides the new strategy,
      whatever the strategy was before. */
  lemma {:induction false} CriterioTrasUltimoDisparo(obs: seq<Observer>, r: Regalo, c: Criterio, k: nat)
    requires k < |obs| && Dispara(obs[k], r)
    requires forall j :: k < j < |obs| ==> !Dispara(obs[j], r)
    ensures CriterioTras(obs, r, c) == Interesado(obs[k].nuevoMontoMaximo)
  {
    if k < |obs| - 1 {
      var previos := obs[..|obs| - 1];
      assert previos[k] == obs[k];
      forall j | k < j < |previos| ensures !Dispara(previos[j], r) {
        assert previos[j] == obs[j];
      }
      CriterioTrasUltimoDisparo(previos, r, c, k);
    }
  }

  /** With escalators configured as by default, a gift above 10000 leaves
      the receiver Interesado(5000), whatever the prior strategy was; a gift
      of at most 10000 leaves the strategy as it was. */
  lemma {:induction false} EscaladoPorDefecto(obs: seq<Observer>, r: Regalo, c: Criterio)
    requires forall i :: 0 <= i < |obs| && obs[i].ModificarCriterioDePersonaInteresada? ==>
               obs[i] == ModificarCriterioPorDefecto
    ensures ModificarCriterioPorDefecto in obs && r.costoDelRegalo > 10000.0 ==>
              CriterioTras(obs, r, c) == Interesado(5000.0)
    ensures r.costoDelRegalo <= 10000.0 ==> CriterioTras(obs, r, c) == c
  {
    if obs != [] {
      var previos := obs[..|obs| - 1];
      forall i | 0 <= i < |previos| && previos[i].ModificarCriterioDePersonaInteresada?
        ensures previos[i] == ModificarCriterioPorDefecto
      {
        assert previos[i] == obs[i];
      }
      EscaladoPorDefecto(previos, r, c);
      if ModificarCriterioPorDefecto in obs && obs[|obs| - 1] != ModificarCriterioPorDefecto {
        var i :| 0 <= i < |obs| && obs[i] == ModificarCriterioPorDefecto;
        assert previos[i] == obs[i];
      }
    }
  }

  /** Sender `s` gets one copy of the delivery mail per mail observer of
      `obs` injected with `s`, and nothing else. */
  lemma {:induction false} MailsEnviadosSonUnoPorObserver(obs: seq<Observer>, s: MailSender, aviso: Mail)
    ensures |MailsEnviadosA(obs, s, aviso)| == multiset(obs)[MailObserver(s)]
    ensures forall j :: 0 <= j < |MailsEnviadosA(obs, s, aviso)| ==>
              MailsEnviadosA(obs, s, aviso)[j] == aviso
  {
    if obs != [] {
      var previos := obs[..|obs| - 1];
      assert obs == previos + [obs[|obs| - 1]];
      MailsEnviadosSonUnoPorObserver(previos, s, aviso);
    }
  }

  /** Service `f` gets one copy of the delivery report per shipping
      observer of `obs` injected with `f`, and nothing else. */
  lemma {:induction false} InformesEnviadosSonUnoPorObserver(obs: seq<Observer>, f: Flete, informe: Informe)
    ensures |InformesEnviadosA(obs, f, informe)| == multiset(obs)[AvisarAlFlete(f)]
    ensures forall j :: 0 <= j < |InformesEnviadosA(obs, f, informe)| ==>
              InformesEnviadosA(obs, f, informe)[j] == informe
  {
    if obs != [] {
      var previos := obs[..|obs| - 1];
      assert obs == previos + [obs[|obs| - 1]];
      InformesEnviadosSonUnoPorObserver(previos, f, informe);
    }
  }
}
