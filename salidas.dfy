// Outbound collaborators. Their implementations are external; each is
// modelled as the ghost trace of the messages handed to it.
module Salidas {

  datatype Mail = Mail(to: string, from: string, subject: string, content: string)

  datatype Informe = Informe(direccionCliente: string, nombreCliente: string,
                             dniCliente: string, codigoRegalo: int)

  /** The mail collaborator: sending appends the message to its trace. */
  class MailSender {
    ghost var enviados: seq<Mail>

    constructor ()
      ensures enviados == []
    {
      enviados := [];
    }

    method SendMail(notificacion: Mail)
      modifies this
      ensures enviados == old(enviados) + [notificacion]
    {
      enviados := enviados + [notificacion];
    }
  }

  /** The shipping collaborator: reporting appends the report to its trace. */
  class Flete {
    ghost var informes: seq<Informe>

    constructor ()
      ensures informes == []
    {
      informes := [];
    }

    method InformarElRegalo(notificacion: Informe)
      modifies this
      ensures informes == old(informes) + [notificacion]
    {
      informes := informes + [notificacion];
    }
  }
}
