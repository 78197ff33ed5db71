/**
 * The admin panel page: the guard run when it mounts, the complaint list it
 * loads, the folio-keyed status editor, and logout.
 */
module AdminPanel {
  import opened Wrappers
  import opened Quejas
  import Session
  import Routes

  const ApiUrl := "https://api-quejas.onrender.com/api/quejas"

  /** How an update request ended: with a JSON body (whatever the HTTP status), or rejected. */
  datatype PutReply = JsonBody | Rejected

  /** The update request: the URL names the folio and the body carries only the new status. */
  datatype UpdateRequest = UpdateRequest(url: string, estatus: string)

  /**
   * An update request in flight: the folio and the status the click captured.
   * Its reply handler applies them to the list as it is when the reply arrives.
   */
  datatype PendingUpdate = PendingUpdate(folio: string, estatus: string)

  /** The editor's state: nothing selected, or one record being edited. */
  datatype EditPhase = Idle | Selected(queja: Queja)

  /** Where the mount guard sends the admin: to `/login` unless the stored flag is exactly "true". */
  function GuardRedirect(stored: Option<string>): (nav: Option<string>)
    ensures nav.Some? <==> stored != Some(Session.TrueText)
    ensures nav.Some? ==> nav.value == Routes.LoginPath
  {
    if Session.IsAdmin(stored) then None else Some(Routes.LoginPath)
  }

  class AdminQuejas {
    var quejas: seq<Queja>
    var quejaSeleccionada: Option<Queja>
    var nuevoEstatus: string
    /** Update requests sent and not yet answered; nothing stops a second "Guardar". */
    var updates: seq<PendingUpdate>

    constructor ()
      ensures quejas == [] && quejaSeleccionada == None && nuevoEstatus == "" && updates == []
    {
      quejas, quejaSeleccionada, nuevoEstatus, updates := [], None, "", [];
    }

    function Phase(): (p: EditPhase)
      reads this
      ensures p.Idle? <==> quejaSeleccionada.None?
      ensures p.Selected? ==> p.queja == quejaSeleccionada.value
    {
      if quejaSeleccionada.Some? then Selected(quejaSeleccionada.value) else Idle
    }

    /** The mount guard: reads the flag and tells where to navigate, if anywhere. */
    method GuardOnMount(store: Session.Storage) returns (nav: Option<string>)
      ensures nav == GuardRedirect(store.GetItem(Session.IsAdminKey))
      ensures nav == Some(Routes.LoginPath) <==> !Session.StoredIsAdmin(store)
    {
      nav := GuardRedirect(store.GetItem(Session.IsAdminKey));
    }

    /** A finished load replaces the list wholesale; a failed one leaves everything as it was. */
    method FetchResolved(body: Option<seq<Queja>>)
      modifies this
      ensures quejas == (if body.Some? then body.value else old(quejas))
      ensures quejaSeleccionada == old(quejaSeleccionada) && nuevoEstatus == old(nuevoEstatus)
      ensures updates == old(updates)
    {
      if body.Some? {
        quejas := body.value;
      }
    }

    /** "Editar": the record becomes the selection and its status seeds the draft. */
    method SeleccionarQueja(q: Queja)
      modifies this
      ensures quejaSeleccionada == Some(q) && nuevoEstatus == q.estatus
      ensures Phase() == Selected(q)
      ensures quejas == old(quejas) && updates == old(updates)
    {
      quejaSeleccionada := Some(q);
      nuevoEstatus := q.estatus;
    }

    /** The status select. */
    method SetNuevoEstatus(e: string)
      modifies this
      ensures nuevoEstatus == e
      ensures quejas == old(quejas) && quejaSeleccionada == old(quejaSeleccionada) && updates == old(updates)
    {
      nuevoEstatus := e;
    }

    /** What "Guardar" sends, when there is a selection. */
    function Request(): (r: Option<UpdateRequest>)
      reads this
      ensures r.Some? <==> quejaSeleccionada.Some?
      ensures r.Some? ==> r.value.url == ApiUrl + "/" + quejaSeleccionada.value.folio
                          && r.value.estatus == nuevoEstatus
    {
      match quejaSeleccionada
      case Some(q) => Some(UpdateRequest(ApiUrl + "/" + q.folio, nuevoEstatus))
      case None => None
    }

    /**
     * "Guardar": the request for the selection is sent and joins the ones in
     * flight; nothing else changes until its reply arrives. Without a
     * selection no request is made (the button is shown only with one).
     */
    method ActualizarEstatus()
      modifies this
      ensures old(quejaSeleccionada).Some? ==>
                updates == old(updates) + [PendingUpdate(old(quejaSeleccionada).value.folio, old(nuevoEstatus))]
      ensures old(quejaSeleccionada).Some? ==>
                && old(Request()).Some?
                && old(Request()).value.url == ApiUrl + "/" + updates[|updates| - 1].folio
                && old(Request()).value.estatus == updates[|updates| - 1].estatus
      ensures old(quejaSeleccionada).None? ==> updates == old(updates)
      ensures quejas == old(quejas) && quejaSeleccionada == old(quejaSeleccionada) && nuevoEstatus == old(nuevoEstatus)
    {
      if quejaSeleccionada.Some? {
        updates := updates + [PendingUpdate(quejaSeleccionada.value.folio, nuevoEstatus)];
      }
    }

    /**
     * The reply to the `k`-th request in flight (replies may arrive in any
     * order). With a JSON body every record of the current list with that
     * request's folio takes its status, nothing else in the list changes, and
     * the selection is cleared, whichever record is selected by then. A
     * rejected request changes nothing but leaving the set in flight.
     */
    method UpdateResolved(k: nat, reply: PutReply)
      requires k < |updates|
      modifies this
      ensures updates == old(updates[..k] + updates[k + 1..])
      ensures reply == JsonBody ==>
                && quejas == PatchByFolio(old(quejas), old(updates[k]).folio, old(updates[k]).estatus)
                && quejaSeleccionada == None
                && Phase() == Idle
      ensures reply == Rejected ==> quejas == old(quejas) && quejaSeleccionada == old(quejaSeleccionada)
      ensures nuevoEstatus == old(nuevoEstatus)
    {
      var u := updates[k];
      updates := updates[..k] + updates[k + 1..];
      if reply == JsonBody {
        quejas := PatchByFolio(quejas, u.folio, u.estatus);
        quejaSeleccionada := None;
      }
    }

    /** "Cancelar": the selection goes, the list stays. */
    method Cancelar()
      modifies this
      ensures quejaSeleccionada == None && Phase() == Idle
      ensures quejas == old(quejas) && nuevoEstatus == old(nuevoEstatus) && updates == old(updates)
    {
      quejaSeleccionada := None;
    }

    /** "Cerrar sesión": the flag is removed and the page goes to `/login`. */
    method CerrarSesion(store: Session.Storage) returns (nav: string)
      modifies store
      ensures store.items == old(store.items) - {Session.IsAdminKey}
      ensures !Session.StoredIsAdmin(store)
      ensures nav == Routes.LoginPath
    {
      store.RemoveItem(Session.IsAdminKey);
      nav := Routes.LoginPath;
    }
  }

  /**
   * Selecting a record and saving it, with a JSON reply, gives every record
   * with that folio the chosen status, leaves the list's length as it was
   * and leaves the requests in flight as they were.
   */
  method EditScenario(panel: AdminQuejas, q: Queja, estatus: string)
    modifies panel
    ensures |panel.quejas| == |old(panel.quejas)|
    ensures forall i :: 0 <= i < |panel.quejas| && old(panel.quejas)[i].folio == q.folio ==>
              panel.quejas[i].estatus == estatus
    ensures forall i :: 0 <= i < |panel.quejas| && old(panel.quejas)[i].folio != q.folio ==>
              panel.quejas[i] == old(panel.quejas)[i]
    ensures panel.Phase() == Idle && panel.updates == old(panel.updates)
  {
    panel.SeleccionarQueja(q);
    panel.SetNuevoEstatus(estatus);
    panel.ActualizarEstatus();
    panel.UpdateResolved(|panel.updates| - 1, JsonBody);
  }

  /**
   * A reply that arrives after the admin has moved on to another record
   * clears that newer selection and patches the earlier record's folio.
   */
  method LateReplyClearsNewerSelection(panel: AdminQuejas, a: Queja, b: Queja)
    modifies panel
    ensures panel.quejaSeleccionada == None
    ensures panel.quejas == PatchByFolio(old(panel.quejas), a.folio, a.estatus)
  {
    panel.SeleccionarQueja(a);
    panel.ActualizarEstatus();
    panel.SeleccionarQueja(b);
    panel.UpdateResolved(|panel.updates| - 1, JsonBody);
  }

  /** After logout the mount guard sends the admin back to the login page. */
  method LogoutThenGuard(panel: AdminQuejas, store: Session.Storage) returns (nav: Option<string>)
    modifies store
    ensures nav == Some(Routes.LoginPath)
  {
    var _ := panel.CerrarSesion(store);
    nav := panel.GuardOnMount(store);
  }
}
